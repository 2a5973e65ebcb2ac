/** Names, local variables and upvalues: `find_variable` of compiler.rs, and the cells that the `Closure`
    operation of vm.rs gives to a function. */
module Scopes {
  import opened Values

  datatype Descriptor = Environment | ParentLocal(register: nat) | Outer(index: nat)
  datatype Local = Local(name: string, register: nat)
  datatype UpName = UpName(name: string, descriptor: Descriptor)
  datatype Block = Block(stackBottom: nat, ownsUpvalues: bool)

  /** A function under compilation: its visible locals, the last declared one last; its upvalues; its blocks. */
  datatype Function = Function(locals: seq<Local>, upvalues: seq<UpName>, blocks: seq<Block>)

  datatype Variable = LocalVariable(register: nat) | UpValue(index: nat) | Global(name: string)

  const ENV := "_ENV"
  const MAX_UPVALUE: nat := 255

  // The scoping rule: the innermost visible declaration.

  /** A register of the function at some nesting depth, the environment of the chunk, or no local at all. */
  datatype Place = Register(depth: nat, register: nat) | ChunkEnvironment | Nowhere

  function FindLocal(locals: seq<Local>, name: string): Option<nat> {
    if locals == [] then None
    else
      var last := locals[|locals| - 1];
      if last.name == name then Some(last.register) else FindLocal(locals[..|locals| - 1], name)
  }

  /** Where a name that is used inside the last of the functions lives. */
  function Visible(fns: seq<Function>, name: string): Place {
    if fns == [] then (if name == ENV then ChunkEnvironment else Nowhere)
    else
      var r := FindLocal(fns[|fns| - 1].locals, name);
      if r.Some? then Register(|fns| - 1, r.value) else Visible(fns[..|fns| - 1], name)
  }

  // What descriptors mean at run time.

  /** The cells of a closure: the `Closure` operation opens an upvalue for a register of the running
      function, or passes on an upvalue of its own. */
  function Cells(fns: seq<Function>, depth: nat): (cells: seq<Place>)
    requires depth < |fns|
    ensures |cells| == |fns[depth].upvalues|
  {
    var parent := if depth == 0 then [] else Cells(fns, depth - 1);
    var ups := fns[depth].upvalues;
    seq(|ups|, u requires 0 <= u < |ups| =>
      match ups[u].descriptor
      case Environment => ChunkEnvironment
      case ParentLocal(r) => if depth > 0 then Register(depth - 1, r) else Nowhere
      case Outer(i) => if i < |parent| then parent[i] else Nowhere)
  }

  // `find_variable`.

  datatype Hit = LocalHit(depth: nat, register: nat) | UpHit(depth: nat, index: nat) | EnvironmentHit | Miss

  function FindUpValue(ups: seq<UpName>, name: string, start: nat): (r: Option<nat>)
    requires start <= |ups|
    ensures r.Some? ==> start <= r.value < |ups| && ups[r.value].name == name
    ensures r.None? ==> forall u :: start <= u < |ups| ==> ups[u].name != name
    decreases |ups| - start
  {
    if start == |ups| then None
    else if ups[start].name == name then Some(start)
    else FindUpValue(ups, name, start + 1)
  }

  /** From the `n`th function outwards: its locals, and then its upvalues. */
  function Search(fns: seq<Function>, n: nat, name: string): Hit
    requires n <= |fns|
  {
    if n == 0 then Miss
    else
      var f := fns[n - 1];
      var r := FindLocal(f.locals, name);
      if r.Some? then LocalHit(n - 1, r.value)
      else if n == 1 && name == ENV && f.upvalues == [] then EnvironmentHit
      else
        var u := FindUpValue(f.upvalues, name, 0);
        if u.Some? then UpHit(n - 1, u.value) else Search(fns, n - 1, name)
  }

  /** Marks the innermost block that starts at or below a register. */
  function MarkOwner(blocks: seq<Block>, register: nat): seq<Block> {
    if blocks == [] then []
    else
      var n := |blocks| - 1;
      if blocks[n].stackBottom <= register then blocks[n := blocks[n].(ownsUpvalues := true)]
      else MarkOwner(blocks[..n], register) + [blocks[n]]
  }

  function PushUpValue(f: Function, name: string, d: Descriptor): Function {
    f.(upvalues := f.upvalues + [UpName(name, d)])
  }

  /** Hands a variable down from the function at `depth` to the last one, which gets it at the resulting
      index. `None` if a function has too many upvalues. */
  function HandDown(fns: seq<Function>, depth: nat, name: string, d: Descriptor): (r: Option<(seq<Function>, nat)>)
    requires depth < |fns|
    ensures r.Some? ==> |r.value.0| == |fns|
    decreases |fns| - depth
  {
    var index := |fns[depth].upvalues|;
    var fns' := fns[depth := PushUpValue(fns[depth], name, d)];
    if index > MAX_UPVALUE then None
    else if depth == |fns| - 1 then Some((fns', index))
    else HandDown(fns', depth + 1, name, Outer(index))
  }

  function HandUp(fns: seq<Function>, depth: nat, index: nat, name: string): Option<(seq<Function>, Variable)>
    requires depth < |fns|
  {
    if index > MAX_UPVALUE then None
    else if depth == |fns| - 1 then Some((fns, UpValue(index)))
    else
      match HandDown(fns, depth + 1, name, Outer(index))
      case None => None
      case Some((fns', i)) => Some((fns', UpValue(i)))
  }

  function FindVariable(fns: seq<Function>, name: string): Option<(seq<Function>, Variable)>
    requires fns != []
  {
    match Search(fns, |fns|, name)
    case Miss => Some((fns, Global(name)))
    case EnvironmentHit => HandUp(fns[0 := PushUpValue(fns[0], name, Environment)], 0, 0, name)
    case UpHit(depth, index) => if depth < |fns| then HandUp(fns, depth, index, name) else None
    case LocalHit(depth, register) =>
      if depth == |fns| - 1 then Some((fns, LocalVariable(register)))
      else if depth + 1 >= |fns| then None
      else
        var marked := fns[depth := fns[depth].(blocks := MarkOwner(fns[depth].blocks, register))];
        match HandDown(marked, depth + 1, name, ParentLocal(register))
        case None => None
        case Some((fns', i)) => Some((fns', UpValue(i)))
  }

  // The invariant.

  /** Every upvalue is the variable that its name stands for outside of its function, and no function has
      two of the same name. */
  ghost predicate UpValuesOk(fns: seq<Function>) {
    && (forall k, u :: 0 <= k < |fns| && 0 <= u < |fns[k].upvalues| ==>
          Cells(fns, k)[u] == Visible(fns[..k], fns[k].upvalues[u].name) != Nowhere)
    && forall k, u, v :: 0 <= k < |fns| && 0 <= u < v < |fns[k].upvalues| ==>
         fns[k].upvalues[u].name != fns[k].upvalues[v].name
  }
}
