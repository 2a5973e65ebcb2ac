/** `find_variable` as it works on the functions under compilation: loops that push upvalues and mark blocks
    in place. */
module ScopeStacks {
  import opened Values
  import opened Scopes

  class ScopeStack {
    /** The enclosing functions, and the current one last. */
    var functions: seq<Function>

    constructor ()
      ensures functions == [Function([], [], [])]
    {
      functions := [Function([], [], [])];
    }

    method LocalIn(locals: seq<Local>, name: string) returns (r: Option<nat>)
      ensures r == FindLocal(locals, name)
    {
      var j := |locals|;
      assert locals[..j] == locals;
      while j > 0
        invariant 0 <= j <= |locals| && FindLocal(locals[..j], name) == FindLocal(locals, name)
      {
        assert locals[..j][..j - 1] == locals[..j - 1];
        j := j - 1;
        if locals[j].name == name {
          return Some(locals[j].register);
        }
      }
      return None;
    }

    method UpValueIn(ups: seq<UpName>, name: string) returns (r: Option<nat>)
      ensures r == FindUpValue(ups, name, 0)
    {
      var j := 0;
      while j < |ups|
        invariant 0 <= j <= |ups| && FindUpValue(ups, name, j) == FindUpValue(ups, name, 0)
      {
        if ups[j].name == name {
          return Some(j);
        }
        j := j + 1;
      }
      return None;
    }

    method MarkingOwner(blocks: seq<Block>, register: nat) returns (r: seq<Block>)
      ensures r == MarkOwner(blocks, register)
    {
      r := blocks;
      var b := |blocks|;
      assert blocks[..b] == blocks;
      while b > 0
        invariant 0 <= b <= |blocks| && r == blocks
        invariant MarkOwner(blocks, register) == MarkOwner(blocks[..b], register) + blocks[b..]
      {
        assert blocks[..b][..b - 1] == blocks[..b - 1];
        b := b - 1;
        if blocks[b].stackBottom <= register {
          r := r[b := r[b].(ownsUpvalues := true)];
          assert blocks[..b + 1][b := r[b]] + blocks[b + 1..] == r;
          return;
        }
        assert [blocks[b]] + blocks[b + 1..] == blocks[b..];
      }
    }

    /** Pushes an upvalue on every function from `depth` to the current one. */
    method HandingDown(depth: nat, name: string, d: Descriptor) returns (index: Option<nat>)
      requires depth < |functions|
      modifies this
      ensures index.Some? ==> HandDown(old(functions), depth, name, d) == Some((functions, index.value))
      ensures index.None? ==> HandDown(old(functions), depth, name, d) == None
    {
      var k, next := depth, d;
      while true
        invariant depth <= k < |functions|
        invariant HandDown(functions, k, name, next) == HandDown(old(functions), depth, name, d)
        decreases |functions| - k
      {
        var i := |functions[k].upvalues|;
        functions := functions[k := PushUpValue(functions[k], name, next)];
        if i > MAX_UPVALUE {
          return None;
        }
        if k == |functions| - 1 {
          return Some(i);
        }
        next := Outer(i);
        k := k + 1;
      }
    }

    method HandingUp(depth: nat, index: nat, name: string) returns (v: Option<Variable>)
      requires depth < |functions|
      modifies this
      ensures v.Some? ==> HandUp(old(functions), depth, index, name) == Some((functions, v.value))
      ensures v.None? ==> HandUp(old(functions), depth, index, name) == None
    {
      if index > MAX_UPVALUE {
        return None;
      }
      if depth == |functions| - 1 {
        return Some(UpValue(index));
      }
      var i := HandingDown(depth + 1, name, Outer(index));
      return if i.Some? then Some(UpValue(i.value)) else None;
    }

    /** From the current function outwards: its locals, then its upvalues. */
    method Find(name: string) returns (v: Option<Variable>)
      requires functions != []
      modifies this
      ensures v.Some? ==> FindVariable(old(functions), name) == Some((functions, v.value))
      ensures v.None? ==> FindVariable(old(functions), name) == None
    {
      var i := |functions|;
      while i > 0
        invariant 0 <= i <= |functions| && functions == old(functions)
        invariant Search(functions, i, name) == Search(functions, |functions|, name)
      {
        i := i - 1;
        var register := LocalIn(functions[i].locals, name);
        if register.Some? {
          if i == |functions| - 1 {
            return Some(LocalVariable(register.value));
          }
          var blocks := MarkingOwner(functions[i].blocks, register.value);
          functions := functions[i := functions[i].(blocks := blocks)];
          var index := HandingDown(i + 1, name, ParentLocal(register.value));
          return if index.Some? then Some(UpValue(index.value)) else None;
        }
        if i == 0 && name == ENV && functions[0].upvalues == [] {
          functions := functions[0 := PushUpValue(functions[0], name, Environment)];
          v := HandingUp(0, 0, name);
          return;
        }
        var index := UpValueIn(functions[i].upvalues, name);
        if index.Some? {
          v := HandingUp(i, index.value, name);
          return;
        }
      }
      return Some(Global(name));
    }
  }
}
