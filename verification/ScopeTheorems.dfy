/** Name resolution in nested functions is lexical scoping. */
module ScopeTheorems {
  import opened Values
  import opened Scopes

  /** What a descriptor of the function at `depth` stands for. */
  function PlaceOf(fns: seq<Function>, depth: nat, d: Descriptor): Place
    requires depth < |fns|
  {
    match d
    case Environment => ChunkEnvironment
    case ParentLocal(r) => if depth > 0 then Register(depth - 1, r) else Nowhere
    case Outer(i) => if depth > 0 && i < |fns[depth - 1].upvalues| then Cells(fns, depth - 1)[i] else Nowhere
  }

  /** Descriptors refer to upvalues that exist. */
  ghost predicate Linked(fns: seq<Function>) {
    forall k, u :: 0 <= k < |fns| && 0 <= u < |fns[k].upvalues| && fns[k].upvalues[u].descriptor.Outer? ==>
      k > 0 && fns[k].upvalues[u].descriptor.index < |fns[k - 1].upvalues|
  }

  lemma OkIsLinked(fns: seq<Function>)
    requires UpValuesOk(fns)
    ensures Linked(fns)
  {
    forall k, u | 0 <= k < |fns| && 0 <= u < |fns[k].upvalues| && fns[k].upvalues[u].descriptor.Outer?
      ensures k > 0 && fns[k].upvalues[u].descriptor.index < |fns[k - 1].upvalues|
    {
      assert Cells(fns, k)[u] != Nowhere;
    }
  }

  /** Cells depend on the functions up to their own, and not on locals and blocks. */
  lemma {:induction false} CellsSame(fns: seq<Function>, gns: seq<Function>, k: nat)
    requires k < |fns| && k < |gns| && forall j :: 0 <= j <= k ==> fns[j].upvalues == gns[j].upvalues
    ensures Cells(fns, k) == Cells(gns, k)
  {
    if k > 0 {
      CellsSame(fns, gns, k - 1);
    }
  }

  lemma CellsPushHere(fns: seq<Function>, depth: nat, name: string, d: Descriptor)
    requires depth < |fns| && Linked(fns)
    ensures Cells(fns[depth := PushUpValue(fns[depth], name, d)], depth) == Cells(fns, depth) + [PlaceOf(fns, depth, d)]
  {
    if depth > 0 {
      CellsSame(fns, fns[depth := PushUpValue(fns[depth], name, d)], depth - 1);
    }
  }

  lemma CellsAbove(fns: seq<Function>, gns: seq<Function>, k: nat)
    requires 0 < k < |fns| == |gns| && Linked(fns) && gns[k].upvalues == fns[k].upvalues
    requires Cells(fns, k - 1) <= Cells(gns, k - 1)
    ensures Cells(gns, k) == Cells(fns, k)
  {
  }

  /** A new upvalue adds a cell, and changes no other. */
  lemma {:induction false} CellsPush(fns: seq<Function>, depth: nat, name: string, d: Descriptor, k: nat)
    requires depth < |fns| && k < |fns| && Linked(fns)
    ensures Cells(fns[depth := PushUpValue(fns[depth], name, d)], k)
            == if k == depth then Cells(fns, k) + [PlaceOf(fns, depth, d)] else Cells(fns, k)
  {
    hide Cells, Linked, PlaceOf;
    var gns := fns[depth := PushUpValue(fns[depth], name, d)];
    if k < depth {
      CellsSame(fns, gns, k);
    } else if k == depth {
      CellsPushHere(fns, depth, name, d);
    } else {
      CellsPush(fns, depth, name, d, k - 1);
      CellsAbove(fns, gns, k);
    }
  }

  /** Visibility depends on locals only. */
  lemma {:induction false} VisibleSame(fns: seq<Function>, gns: seq<Function>, name: string)
    requires |fns| == |gns| && forall j :: 0 <= j < |fns| ==> fns[j].locals == gns[j].locals
    ensures Visible(fns, name) == Visible(gns, name)
  {
    if fns != [] {
      VisibleSame(fns[..|fns| - 1], gns[..|gns| - 1], name);
    }
  }

  lemma PushOk(fns: seq<Function>, depth: nat, name: string, d: Descriptor)
    requires UpValuesOk(fns) && depth < |fns|
    requires PlaceOf(fns, depth, d) == Visible(fns[..depth], name) != Nowhere
    requires forall u :: 0 <= u < |fns[depth].upvalues| ==> fns[depth].upvalues[u].name != name
    ensures UpValuesOk(fns[depth := PushUpValue(fns[depth], name, d)])
  {
    OkIsLinked(fns);
    var gns := fns[depth := PushUpValue(fns[depth], name, d)];
    forall k, u | 0 <= k < |gns| && 0 <= u < |gns[k].upvalues|
      ensures Cells(gns, k)[u] == Visible(gns[..k], gns[k].upvalues[u].name) != Nowhere
    {
      CellsPush(fns, depth, name, d, k);
      VisibleSame(fns[..k], gns[..k], gns[k].upvalues[u].name);
      if u < |fns[k].upvalues| {
        assert gns[k].upvalues[u] == fns[k].upvalues[u];
        assert Cells(fns, k)[u] == Visible(fns[..k], fns[k].upvalues[u].name);
      }
    }
  }

  ghost predicate UnknownTo(f: Function, name: string) {
    FindLocal(f.locals, name).None? && forall u :: 0 <= u < |f.upvalues| ==> f.upvalues[u].name != name
  }

  /** None of the functions from `depth` up to `n` declares the name or has it as an upvalue. */
  ghost predicate Unknown(fns: seq<Function>, depth: nat, n: nat, name: string) {
    n <= |fns| && forall k :: depth <= k < n ==> UnknownTo(fns[k], name)
  }

  lemma {:induction false} VisibleThrough(fns: seq<Function>, depth: nat, n: nat, name: string)
    requires depth <= n && Unknown(fns, depth, n, name)
    ensures Visible(fns[..n], name) == Visible(fns[..depth], name)
  {
    if depth < n {
      assert fns[..n][..n - 1] == fns[..n - 1];
      VisibleThrough(fns, depth, n - 1, name);
    }
  }

  /** Every function from `depth` inwards has one more upvalue, for the name; nothing else is new. */
  ghost predicate Added(fns: seq<Function>, gns: seq<Function>, depth: nat, name: string) {
    |fns| == |gns| && forall k :: 0 <= k < |fns| ==> AddedTo(fns[k], gns[k], k >= depth, name)
  }

  ghost predicate AddedTo(f: Function, g: Function, more: bool, name: string) {
    g.locals == f.locals && g.blocks == f.blocks
    && if more then |g.upvalues| == |f.upvalues| + 1 && g.upvalues[..|f.upvalues|] == f.upvalues && g.upvalues[|f.upvalues|].name == name
       else g.upvalues == f.upvalues
  }

  lemma HandDownStep(fns: seq<Function>, depth: nat, name: string, d: Descriptor)
    requires UpValuesOk(fns) && depth < |fns| && Unknown(fns, depth, |fns|, name)
    requires PlaceOf(fns, depth, d) == Visible(fns[..depth], name) != Nowhere
    ensures var next, index := fns[depth := PushUpValue(fns[depth], name, d)], |fns[depth].upvalues|;
            && UpValuesOk(next) && Unknown(next, depth + 1, |fns|, name)
            && Cells(next, depth)[index] == Visible(fns[..depth], name) == Visible(next[..depth + 1], name)
  {
    var next := fns[depth := PushUpValue(fns[depth], name, d)];
    PushOk(fns, depth, name, d);
    OkIsLinked(fns);
    CellsPush(fns, depth, name, d, depth);
    VisibleThrough(fns, depth, depth + 1, name);
    VisibleSame(fns[..depth + 1], next[..depth + 1], name);
  }

  function Denotes(fns: seq<Function>, v: Variable): Place
    requires fns != []
  {
    match v
    case LocalVariable(r) => Register(|fns| - 1, r)
    case UpValue(i) => if i < |fns[|fns| - 1].upvalues| then Cells(fns, |fns| - 1)[i] else Nowhere
    case Global(_) => Nowhere
  }

  /** Handing a variable down gives every function on the way one upvalue for it. */
  lemma {:induction false} HandDownOk(fns: seq<Function>, depth: nat, name: string, d: Descriptor)
    requires UpValuesOk(fns) && depth < |fns| && Unknown(fns, depth, |fns|, name) && HandDown(fns, depth, name, d).Some?
    requires PlaceOf(fns, depth, d) == Visible(fns[..depth], name) != Nowhere
    ensures var (gns, index) := HandDown(fns, depth, name, d).value;
            UpValuesOk(gns) && Added(fns, gns, depth, name) && Denotes(gns, UpValue(index)) == Visible(fns[..depth], name)
    decreases |fns| - depth
  {
    hide UpValuesOk, Unknown, Cells, Visible;
    var index := |fns[depth].upvalues|;
    var next := fns[depth := PushUpValue(fns[depth], name, d)];
    HandDownStep(fns, depth, name, d);
    if depth < |fns| - 1 {
      HandDownOk(next, depth + 1, name, Outer(index));
      var gns := HandDown(fns, depth, name, d).value.0;
      forall k | 0 <= k < |fns| ensures AddedTo(fns[k], gns[k], k >= depth, name) {
        assert AddedTo(next[k], gns[k], k >= depth + 1, name);
      }
    } else {
      assert Added(fns, next, depth, name);
    }
  }

  // `find_variable` finds the innermost visible declaration.

  /** What a search says about the functions it has passed. */
  ghost predicate Passed(fns: seq<Function>, n: nat, name: string, hit: Hit) {
    match hit
    case LocalHit(depth, r) =>
      depth < n <= |fns| && Unknown(fns, depth + 1, n, name) && FindLocal(fns[depth].locals, name) == Some(r)
    case UpHit(depth, u) =>
      depth < n <= |fns| && Unknown(fns, depth + 1, n, name) && FindLocal(fns[depth].locals, name).None?
      && u < |fns[depth].upvalues| && fns[depth].upvalues[u].name == name
    case EnvironmentHit => 0 < n && Unknown(fns, 0, n, name) && name == ENV && fns[0].upvalues == []
    case Miss => Unknown(fns, 0, n, name) && (n > 0 && name == ENV ==> fns[0].upvalues != [])
  }

  lemma {:induction false} SearchPasses(fns: seq<Function>, n: nat, name: string)
    requires n <= |fns|
    ensures Passed(fns, n, name, Search(fns, n, name))
  {
    if n > 0 {
      SearchPasses(fns, n - 1, name);
      assert forall depth :: Unknown(fns, depth, n - 1, name) && UnknownTo(fns[n - 1], name) ==> Unknown(fns, depth, n, name);
    }
  }

  /** The upvalues of the chunk are all its environment. */
  lemma ChunkUpValues(fns: seq<Function>)
    requires UpValuesOk(fns) && fns != []
    ensures forall u :: 0 <= u < |fns[0].upvalues| ==> fns[0].upvalues[u].name == ENV
    ensures fns[0].upvalues != [] ==> fns[0].upvalues[0].name == ENV
  {
    forall u | 0 <= u < |fns[0].upvalues| ensures fns[0].upvalues[u].name == ENV {
      assert Cells(fns, 0)[u] == Visible(fns[..0], fns[0].upvalues[u].name) != Nowhere;
    }
  }

  /** The result, and what has changed: functions got upvalues of that name, and one block may be marked. */
  ghost predicate Resolves(fns: seq<Function>, gns: seq<Function>, v: Variable, name: string)
    requires fns != []
  {
    && |gns| == |fns| && UpValuesOk(gns) && Denotes(gns, v) == Visible(fns, name)
    && (v.Global? ==> v.name == name)
    && forall k :: 0 <= k < |fns| ==> gns[k].locals == fns[k].locals && fns[k].upvalues <= gns[k].upvalues
  }

  lemma UpHitVisible(fns: seq<Function>, depth: nat, index: nat, name: string)
    requires UpValuesOk(fns) && depth < |fns| && index < |fns[depth].upvalues| && fns[depth].upvalues[index].name == name
    requires FindLocal(fns[depth].locals, name).None? && Unknown(fns, depth + 1, |fns|, name)
    ensures Cells(fns, depth)[index] == Visible(fns[..depth + 1], name) == Visible(fns, name) != Nowhere
  {
    assert Cells(fns, depth)[index] == Visible(fns[..depth], name) != Nowhere;
    assert fns[..depth + 1][..depth] == fns[..depth] && fns[..|fns|] == fns;
    VisibleThrough(fns, depth + 1, |fns|, name);
  }

  lemma HandUpResolves(fns: seq<Function>, depth: nat, index: nat, name: string)
    requires UpValuesOk(fns) && depth < |fns| && index < |fns[depth].upvalues| && fns[depth].upvalues[index].name == name
    requires FindLocal(fns[depth].locals, name).None? && Unknown(fns, depth + 1, |fns|, name)
    requires HandUp(fns, depth, index, name).Some?
    ensures var (gns, v) := HandUp(fns, depth, index, name).value; Resolves(fns, gns, v, name)
  {
    hide Cells, Visible, UpValuesOk, Unknown, HandDown, FindLocal, Added;
    UpHitVisible(fns, depth, index, name);
    if depth < |fns| - 1 {
      HandDownOk(fns, depth + 1, name, Outer(index));
      AddedExtends(fns, HandDown(fns, depth + 1, name, Outer(index)).value.0, depth + 1, name);
    }
  }

  lemma LocalHitVisible(fns: seq<Function>, depth: nat, r: nat, name: string)
    requires UpValuesOk(fns) && depth + 1 < |fns| && FindLocal(fns[depth].locals, name) == Some(r)
    requires Unknown(fns, depth + 1, |fns|, name)
    ensures var marked := fns[depth := fns[depth].(blocks := MarkOwner(fns[depth].blocks, r))];
            UpValuesOk(marked) && Unknown(marked, depth + 1, |marked|, name)
            && Visible(marked[..depth + 1], name) == Visible(fns, name) == Register(depth, r)
  {
    var marked := fns[depth := fns[depth].(blocks := MarkOwner(fns[depth].blocks, r))];
    hide Cells, UpValuesOk, FindLocal, MarkOwner;
    MarkedOk(fns, depth, marked[depth].blocks);
    assert fns[..|fns|] == fns;
    VisibleThrough(fns, depth + 1, |fns|, name);
    VisibleSame(fns[..depth + 1], marked[..depth + 1], name);
  }

  lemma LocalHitResolves(fns: seq<Function>, depth: nat, r: nat, name: string)
    requires UpValuesOk(fns) && depth + 1 < |fns| && FindLocal(fns[depth].locals, name) == Some(r)
    requires Unknown(fns, depth + 1, |fns|, name)
    requires var marked := fns[depth := fns[depth].(blocks := MarkOwner(fns[depth].blocks, r))];
             HandDown(marked, depth + 1, name, ParentLocal(r)).Some?
    ensures var marked := fns[depth := fns[depth].(blocks := MarkOwner(fns[depth].blocks, r))];
            var (gns, i) := HandDown(marked, depth + 1, name, ParentLocal(r)).value;
            Resolves(fns, gns, UpValue(i), name) && Added(marked, gns, depth + 1, name)
  {
    hide Cells, Visible, UpValuesOk, Unknown, HandDown, FindLocal, MarkOwner, Added, Denotes;
    var marked := fns[depth := fns[depth].(blocks := MarkOwner(fns[depth].blocks, r))];
    LocalHitVisible(fns, depth, r, name);
    HandDownOk(marked, depth + 1, name, ParentLocal(r));
    AddedExtends(marked, HandDown(marked, depth + 1, name, ParentLocal(r)).value.0, depth + 1, name);
  }

  /** Marking blocks changes nothing that names depend on. */
  lemma MarkedOk(fns: seq<Function>, depth: nat, blocks: seq<Block>)
    requires UpValuesOk(fns) && depth < |fns|
    ensures UpValuesOk(fns[depth := fns[depth].(blocks := blocks)])
  {
    var marked := fns[depth := fns[depth].(blocks := blocks)];
    forall k, u | 0 <= k < |marked| && 0 <= u < |marked[k].upvalues|
      ensures Cells(marked, k)[u] == Visible(marked[..k], marked[k].upvalues[u].name) != Nowhere
    {
      CellsSame(fns, marked, k);
      VisibleSame(fns[..k], marked[..k], marked[k].upvalues[u].name);
      assert Cells(fns, k)[u] == Visible(fns[..k], fns[k].upvalues[u].name);
    }
  }

  lemma EnvironmentResolves(fns: seq<Function>, name: string)
    requires UpValuesOk(fns) && fns != [] && Unknown(fns, 0, |fns|, name) && name == ENV && fns[0].upvalues == []
    requires HandUp(fns[0 := PushUpValue(fns[0], name, Environment)], 0, 0, name).Some?
    ensures var (gns, v) := HandUp(fns[0 := PushUpValue(fns[0], name, Environment)], 0, 0, name).value;
            Resolves(fns, gns, v, name)
  {
    var next := fns[0 := PushUpValue(fns[0], name, Environment)];
    PushOk(fns, 0, name, Environment);
    assert Unknown(next, 1, |next|, name) && FindLocal(next[0].locals, name).None? by {
      assert UnknownTo(fns[0], name);
    }
    VisibleSame(fns, next, name);
    hide Cells, Visible, UpValuesOk, Unknown, HandUp, FindLocal;
    HandUpResolves(next, 0, 0, name);
  }

  /** A name resolves to the innermost visible declaration, which is what the resulting variable denotes
      when closures are made; a name without one is a global. All upvalues keep their meaning. */
  lemma FindsInnermost(fns: seq<Function>, name: string)
    requires UpValuesOk(fns) && fns != [] && FindVariable(fns, name).Some?
    ensures var (gns, v) := FindVariable(fns, name).value; Resolves(fns, gns, v, name)
  {
    SearchPasses(fns, |fns|, name);
    match Search(fns, |fns|, name) {
      case Miss => MissIsGlobal(fns, name);
      case EnvironmentHit => EnvironmentResolves(fns, name);
      case UpHit(depth, index) => HandUpResolves(fns, depth, index, name);
      case LocalHit(depth, r) =>
        if depth + 1 < |fns| {
          LocalHitResolves(fns, depth, r, name);
        }
    }
  }

  lemma MissIsGlobal(fns: seq<Function>, name: string)
    requires UpValuesOk(fns) && fns != [] && Unknown(fns, 0, |fns|, name) && (name == ENV ==> fns[0].upvalues != [])
    ensures Visible(fns, name) == Nowhere
  {
    hide Cells, UpValuesOk, FindLocal;
    ChunkUpValues(fns);
    assert name != ENV by {
      assert UnknownTo(fns[0], name);
    }
    VisibleThrough(fns, 0, |fns|, name);
    assert fns[..|fns|] == fns && fns[..0] == [];
  }

  lemma AddedExtends(fns: seq<Function>, gns: seq<Function>, depth: nat, name: string)
    requires Added(fns, gns, depth, name)
    ensures forall k :: 0 <= k < |fns| ==> gns[k].locals == fns[k].locals && fns[k].upvalues <= gns[k].upvalues
  {
    forall k | 0 <= k < |fns| ensures gns[k].locals == fns[k].locals && fns[k].upvalues <= gns[k].upvalues {
      assert AddedTo(fns[k], gns[k], k >= depth, name);
    }
  }

  // The events around it.

  /** Declaring a local variable in the last function, or forgetting one, changes no upvalue's meaning. */
  lemma LastLocalsOk(fns: seq<Function>, f: Function)
    requires UpValuesOk(fns) && fns != [] && f.upvalues == fns[|fns| - 1].upvalues
    ensures UpValuesOk(fns[|fns| - 1 := f])
  {
    var gns := fns[|fns| - 1 := f];
    forall k, u | 0 <= k < |gns| && 0 <= u < |gns[k].upvalues|
      ensures Cells(gns, k)[u] == Visible(gns[..k], gns[k].upvalues[u].name) != Nowhere
    {
      CellsSame(fns, gns, k);
      assert gns[..k] == fns[..k];
      assert Cells(fns, k)[u] == Visible(fns[..k], fns[k].upvalues[u].name);
    }
  }

  /** A nested function starts with its parameters, and no upvalues. */
  lemma EnterFunctionOk(fns: seq<Function>, f: Function)
    requires UpValuesOk(fns) && f.upvalues == []
    ensures UpValuesOk(fns + [f])
  {
    var gns := fns + [f];
    forall k, u | 0 <= k < |gns| && 0 <= u < |gns[k].upvalues|
      ensures Cells(gns, k)[u] == Visible(gns[..k], gns[k].upvalues[u].name) != Nowhere
    {
      CellsSame(fns, gns, k);
      assert gns[..k] == fns[..k];
      assert Cells(fns, k)[u] == Visible(fns[..k], fns[k].upvalues[u].name);
    }
  }

  lemma LeaveFunctionOk(fns: seq<Function>)
    requires UpValuesOk(fns) && fns != []
    ensures UpValuesOk(fns[..|fns| - 1])
  {
    var gns := fns[..|fns| - 1];
    forall k, u | 0 <= k < |gns| && 0 <= u < |gns[k].upvalues|
      ensures Cells(gns, k)[u] == Visible(gns[..k], gns[k].upvalues[u].name) != Nowhere
    {
      CellsSame(fns, gns, k);
      assert gns[..k] == fns[..k];
      assert Cells(fns, k)[u] == Visible(fns[..k], fns[k].upvalues[u].name);
    }
  }
}
