/** The thread state of piccolo/src/thread/thread.rs as the object that it is there: methods change the
    frames and the value stack in place. Each is proved against its function in `Threads`. */
module ThreadStates {
  import opened Values
  import T = Threads
  import L = ThreadLayout

  /** `s` with `values` written from `at` on. */
  function Put(s: seq<T.StackValue>, at: nat, values: seq<T.StackValue>): (r: seq<T.StackValue>)
    requires at + |values| <= |s|
    ensures |r| == |s|
  {
    s[..at] + values + s[at + |values|..]
  }

  lemma PutNothing(s: seq<T.StackValue>, at: nat)
    requires at <= |s|
    ensures Put(s, at, []) == s
  {
  }

  lemma PutNext(s: seq<T.StackValue>, at: nat, values: seq<T.StackValue>, v: T.StackValue)
    requires at + |values| < |s|
    ensures Put(s, at, values)[at + |values| := v] == Put(s, at, values + [v])
  {
  }

  lemma PutOutside(s: seq<T.StackValue>, at: nat, values: seq<T.StackValue>, k: nat)
    requires at + |values| <= |s| && k < |s| && !(at <= k < at + |values|)
    ensures Put(s, at, values)[k] == s[k]
  {
  }

  lemma PutParts(s: seq<T.StackValue>, at: nat, values: seq<T.StackValue>)
    requires at + |values| <= |s|
    ensures var r := Put(s, at, values);
            r[..at] == s[..at] && r[at..] == values + s[at + |values|..] && r[..at + |values|] == s[..at] + values
  {
  }

  /** The frame of the closure at `bottom`, called with `count` of the values behind it. */
  function Pushed(t: T.Thread, bottom: nat, count: nat, f: T.Function): T.Thread
    requires f.Closure? && bottom < |t.stack|
  {
    var fixed, above := f.proto.fixedParams, t.stack[bottom + 1..];
    var base := bottom + 1 + T.Excess(count, fixed);
    t.(frames := t.frames + [T.NewLua(bottom, base, f.proto.stackSize)],
       stack := T.Resize(t.stack[..bottom + 1] + (if count > fixed then T.Rotated(above, fixed) else above), base + f.proto.stackSize))
  }

  lemma PartsTogether(s: seq<T.StackValue>, k: nat)
    requires k <= |s|
    ensures s == s[..k] + s[k..]
  {
  }

  lemma RotatedParts(s: seq<T.StackValue>, start: nat, fixed: nat)
    requires start + fixed < |s|
    ensures s[..start] + s[start + fixed..] + s[start..start + fixed] == s[..start] + T.Rotated(s[start..], fixed)
  {
    assert s[start..][fixed..] == s[start + fixed..] && s[start..][..fixed] == s[start..start + fixed];
  }

  lemma PushedRotated(t: T.Thread, bottom: nat, count: nat, f: T.Function)
    requires f.Closure? && bottom + 1 + count == |t.stack| && count > f.proto.fixedParams
    ensures var start, fixed := bottom + 1, f.proto.fixedParams;
            var rotated := t.stack[..start] + t.stack[start + fixed..] + t.stack[start..start + fixed];
            var base := start + (count - fixed);
            Pushed(t, bottom, count, f)
            == t.(frames := t.frames + [T.NewLua(bottom, base, f.proto.stackSize)], stack := T.Resize(rotated, base + f.proto.stackSize))
  {
    RotatedParts(t.stack, bottom + 1, f.proto.fixedParams);
  }

  lemma PushedSame(t: T.Thread, bottom: nat, count: nat, f: T.Function)
    requires f.Closure? && bottom < |t.stack| && count <= f.proto.fixedParams
    ensures var base := bottom + 1;
            Pushed(t, bottom, count, f)
            == t.(frames := t.frames + [T.NewLua(bottom, base, f.proto.stackSize)], stack := T.Resize(t.stack, base + f.proto.stackSize))
  {
    PartsTogether(t.stack, bottom + 1);
  }

  lemma FixedVarArgsAre(t: T.Thread, dest: nat, count: nat)
    requires T.RunsLua(t) && T.Last(t.frames).bottom < T.Last(t.frames).base <= |t.stack| && count > 0
    requires T.Last(t.frames).base + dest + count <= |t.stack|
    ensures var f := T.Last(t.frames);
            L.VarArgs(t, dest, Some(count)) == Some(t.(stack := Put(t.stack, f.base + dest, T.Resize(t.stack[f.bottom + 1..f.base], count))))
  {
  }

  lemma FixedIsInRange(t: T.Thread, dest: nat, count: T.VarCount)
    requires T.RunsLua(t) && T.Last(t.frames).bottom < T.Last(t.frames).base <= |t.stack| && L.VarArgs(t, dest, count).Some?
    ensures count.Some? && count.value > 0 ==> T.Last(t.frames).base + dest + count.value <= |t.stack|
  {
  }

  lemma AllVarArgsAre(t: T.Thread, dest: nat)
    requires T.RunsLua(t) && T.Last(t.frames).bottom < T.Last(t.frames).base <= |t.stack|
    ensures var f, n := T.Last(t.frames), |t.frames|;
            L.VarArgs(t, dest, None) == Some(t.(frames := t.frames[n - 1 := f.(isVariable := true)],
                                                stack := T.Resize(t.stack, f.base + dest) + t.stack[f.bottom + 1..f.base]))
  {
    var f, n := T.Last(t.frames), |t.frames|;
    assert t.frames[n - 1 := f.(isVariable := true)] == T.Pop(t.frames) + [f.(isVariable := true)];
  }

  lemma NoVarArgsAre(t: T.Thread, dest: nat)
    requires T.RunsLua(t) && T.Last(t.frames).bottom < T.Last(t.frames).base <= |t.stack|
    ensures L.VarArgs(t, dest, Some(0)) == Some(t)
  {
  }

  lemma PushedEnters(t: T.Thread, lower: seq<T.StackValue>, values: seq<T.StackValue>, f: T.Function)
    requires f.Closure? && |lower| < |t.stack| && t.stack[..|lower| + 1] == lower + [T.FunctionValue(f)]
    requires t.stack[|lower| + 1..] == values
    ensures Pushed(t, |lower|, |values|, f) == T.Enter(t.frames, lower, f, values, t.open)
  {
  }

  lemma PushedPlain(t: T.Thread, lower: seq<T.StackValue>, values: seq<T.StackValue>, kept: seq<T.StackValue>, f: T.Function)
    requires f.Closure? && |values| <= f.proto.fixedParams
    requires |lower| < |t.stack| && t.stack[..|lower| + 1] == lower + [T.FunctionValue(f)]
    requires t.stack[|lower| + 1..] == values + T.Nils(f.proto.fixedParams - |values|) + kept
    ensures Pushed(t, |lower|, |values|, f) == T.EnterPlain(t.frames, lower, f, values, kept, t.open)
  {
  }

  lemma SameBehind(s: seq<T.StackValue>, s': seq<T.StackValue>, behind: nat, k: nat)
    requires behind <= k <= |s| == |s'| && s[behind..] == s'[behind..]
    ensures s[k..] == s'[k..]
  {
    assert s[k..] == s[behind..][k - behind..] && s'[k..] == s'[behind..][k - behind..];
  }

  class ThreadState {
    var frames: seq<T.Frame>
    var stack: seq<T.StackValue>
    var open: set<nat>

    function Value(): T.Thread
      reads this
    {
      T.Thread(frames, stack, open)
    }

    constructor ()
      ensures Value() == T.Thread([], [], {}) && T.Mode(Value()) == T.Stopped
    {
      frames, stack, open := [], [], {};
    }

    /** Inserts the function below its arguments and rotates the excess ones to the front. */
    method PushCall(bottom: nat, f: T.Function)
      requires bottom <= |stack|
      modifies this
      ensures T.PushCall(old(Value()), bottom, f) == Some(Value())
    {
      match f {
        case Closure(_, proto) =>
          var given := |stack| - bottom;
          var varParams := if given > proto.fixedParams then given - proto.fixedParams else 0;
          stack := stack[..bottom] + [T.FunctionValue(f)] + stack[bottom..];
          var args := stack[bottom + 1..];
          stack := stack[..bottom + 1] + args[|args| - varParams..] + args[..|args| - varParams];
          var base := bottom + 1 + varParams;
          assert stack == old(stack)[..bottom] + [T.FunctionValue(f)] + T.Rotated(old(stack)[bottom..], proto.fixedParams);
          stack := T.Resize(stack, base + proto.stackSize);
          frames := frames + [T.Lua(bottom, base, false, 0, proto.stackSize, None)];
        case Callback(c) =>
          frames := frames + [T.CallbackFrame(bottom, c)];
      }
    }

    method CloseUpvalues(bottom: nat)
      modifies this`open
      ensures open == T.CloseUpvalues(old(open), bottom)
    {
      open := set x | x in open && x < bottom;
    }

    // Loops and slice operations on the stack.

    /** Copies `n` values down or out of the way. */
    method Copy(source: nat, dest: nat, n: nat)
      requires source + n <= |stack| && dest + n <= |stack| && (dest <= source || source + n <= dest)
      modifies this`stack
      ensures stack == Put(old(stack), dest, old(stack)[source..source + n])
    {
      hide Put;
      ghost var was := stack;
      PutNothing(was, dest);
      assert was[source..source] == [];
      var i := 0;
      while i < n
        invariant 0 <= i <= n && |stack| == |was|
        invariant stack == Put(was, dest, was[source..source + i])
      {
        PutOutside(was, dest, was[source..source + i], source + i);
        PutNext(was, dest, was[source..source + i], was[source + i]);
        assert was[source..source + i] + [was[source + i]] == was[source..source + i + 1];
        stack := stack[dest + i := stack[source + i]];
        i := i + 1;
      }
    }

    method Fill(dest: nat, n: nat)
      requires dest + n <= |stack|
      modifies this`stack
      ensures stack == Put(old(stack), dest, T.Nils(n))
    {
      ghost var was := stack;
      var i := 0;
      while i < n
        invariant 0 <= i <= n && |stack| == |was| && stack == Put(was, dest, T.Nils(i))
      {
        PutNext(was, dest, T.Nils(i), T.NilValue);
        assert T.Nils(i) + [T.NilValue] == T.Nils(i + 1);
        stack := stack[dest + i := T.NilValue];
        i := i + 1;
      }
    }

    method RotateLeft(start: nat, shift: nat)
      requires start + shift <= |stack|
      modifies this`stack
      ensures stack == old(stack)[..start] + old(stack)[start + shift..] + old(stack)[start..start + shift]
    {
      stack := stack[..start] + stack[start + shift..] + stack[start..start + shift];
    }

    /** The frame of a closure at `bottom`, whose excess arguments go to the front. The stack ends with
        the last argument when there are excess ones. */
    method PushClosure(bottom: nat, count: nat, f: T.Function)
      requires f.Closure? && bottom < |stack|
      requires count > f.proto.fixedParams ==> bottom + 1 + count == |stack|
      modifies this`stack, this`frames
      ensures Value() == Pushed(old(Value()), bottom, count, f)
    {
      hide Pushed, T.Resize;
      var base := bottom + 1;
      if count > f.proto.fixedParams {
        RotateLeft(bottom + 1, f.proto.fixedParams);
        base := bottom + 1 + (count - f.proto.fixedParams);
        PushedRotated(old(Value()), bottom, count, f);
      } else {
        PushedSame(old(Value()), bottom, count, f);
      }
      stack := T.Resize(stack, base + f.proto.stackSize);
      frames := frames + [T.NewLua(bottom, base, f.proto.stackSize)];
    }

    // Operations of the top Lua frame. They refuse (`ok` is false) when the stack is variable and a fixed
    // number of values is asked for, or the other way round.

    /** Copies the frame's varargs to its registers from `dest` on. */
    method VarArgs(dest: nat, count: T.VarCount) returns (ok: bool)
      requires T.RunsLua(Value()) && T.Last(frames).bottom < T.Last(frames).base <= |stack|
      requires L.VarArgs(Value(), dest, count).Some?
      modifies this
      ensures ok == !old(T.Last(frames).isVariable)
      ensures ok ==> L.VarArgs(old(Value()), dest, count) == Some(Value())
      ensures !ok ==> Value() == old(Value())
    {
      var f := frames[|frames| - 1];
      if f.isVariable {
        return false;
      }
      ok := true;
      FixedIsInRange(Value(), dest, count);
      hide Put, L.VarArgs, T.Resize;
      match count {
        case Some(n) =>
          if n > 0 {
            FixedVarArgsAre(Value(), dest, n);
            FixedVarArgs(f.bottom + 1, f.base - f.bottom - 1, f.base + dest, n);
          } else {
            NoVarArgsAre(Value(), dest);
          }
        case None =>
          AllVarArgsAre(Value(), dest);
          frames := frames[|frames| - 1 := f.(isVariable := true)];
          AllVarArgs(f.bottom + 1, f.base - f.bottom - 1, f.base + dest);
      }
    }

    method FixedVarArgs(start: nat, length: nat, dest: nat, count: nat)
      requires start + length <= dest && start + length <= |stack| && dest + count <= |stack|
      modifies this`stack
      ensures stack == Put(old(stack), dest, T.Resize(old(stack)[start..start + length], count))
    {
      ghost var was, varargs := stack, stack[start..start + length];
      var i := 0;
      while i < count
        invariant 0 <= i <= count && |stack| == |was|
        invariant stack == Put(was, dest, T.Resize(varargs, i))
      {
        var v := if i < length then stack[start + i] else T.NilValue;
        if i < length {
          PutOutside(was, dest, T.Resize(varargs, i), start + i);
        }
        PutNext(was, dest, T.Resize(varargs, i), v);
        assert T.Resize(varargs, i) + [v] == T.Resize(varargs, i + 1);
        stack := stack[dest + i := v];
        i := i + 1;
      }
    }

    method AllVarArgs(start: nat, length: nat, dest: nat)
      requires start + length <= dest && start + length <= |stack|
      modifies this`stack
      ensures stack == T.Resize(old(stack), dest) + old(stack)[start..start + length]
    {
      stack := T.Resize(stack, dest + length);
      ghost var resized := stack;
      Copy(start, dest, length);
      assert resized[start..start + length] == old(stack)[start..start + length] && resized[..dest] == T.Resize(old(stack), dest);
    }

    /** The top frame now waits for the results of a call. */
    method Expect(r: T.LuaReturn)
      requires T.RunsLua(Value())
      modifies this`frames
      ensures frames == T.Expecting(old(Value()), r)
    {
      frames := frames[|frames| - 1 := frames[|frames| - 1].(expected := Some(r))];
    }

    method CallAt(index: nat, count: nat, f: T.Function)
      requires index < |stack| && (f.Closure? && count > f.proto.fixedParams ==> index + 1 + count <= |stack|)
      modifies this`stack, this`frames
      ensures Value() == T.CallAt(old(Value()), index, count, f)
    {
      match f {
        case Closure(_, proto) =>
          stack := stack[index := T.FunctionValue(f)];
          if count > proto.fixedParams {
            stack := stack[..index + 1 + count];
          }
          ghost var above := if count > proto.fixedParams then old(stack)[index + 1..index + 1 + count] else old(stack)[index + 1..];
          assert stack[..index + 1] == old(stack)[..index] + [T.FunctionValue(f)] && stack[index + 1..] == above;
          PushClosure(index, count, f);
        case Callback(c) =>
          stack := stack[..index] + stack[index + 1..];
          stack := T.Truncate(stack, index + count);
          frames := frames + [T.CallbackFrame(index, c)];
      }
    }

    method CallFunction(func: nat, args: T.VarCount, results: T.VarCount, callee: Option<T.Function>) returns (ok: bool)
      requires T.RunsLua(Value()) && T.CallFunction(Value(), func, args, results, callee).Some?
      modifies this
      ensures ok == (old(T.Last(frames).isVariable) == args.None?)
      ensures ok ==> T.CallFunction(old(Value()), func, args, results, callee) == Some(Value())
      ensures !ok ==> Value() == old(Value())
    {
      var f := frames[|frames| - 1];
      if f.isVariable != args.None? {
        return false;
      }
      Expect(T.NormalReturn(results));
      var index := f.base + func;
      var count := if args.Some? then args.value else |stack| - index - 1;
      match callee {
        case None => frames := frames + [T.ErrorFrame(T.BadCall)];
        case Some(callable) => CallAt(index, count, callable);
      }
      ok := true;
    }

    method CallCopy(index: nat, count: nat, f: T.Function)
      requires index < |stack| && (f.Callback? ==> index + 1 + count <= |stack|)
      modifies this`stack, this`frames
      ensures Value() == T.CallCopy(old(Value()), index, count, f)
    {
      var top := index + 1 + count;
      match f {
        case Closure(_, _) =>
          hide T.Enter;
          CopyClosure(index, count, f);
          assert T.Resize(old(stack), top)[index + 1..] == T.Resize(old(stack), top)[index + 1..top];
        case Callback(c) =>
          ghost var values := stack[index + 1..top];
          stack := stack[..top];
          assert stack[index + 1..top] == values;
          stack := stack + stack[index + 1..top];
          frames := frames + [T.CallbackFrame(top, c)];
      }
    }

    method CopyClosure(index: nat, count: nat, f: T.Function)
      requires f.Closure? && index < |stack|
      modifies this`stack, this`frames
      ensures var lower := T.Resize(old(stack), index + 1 + count);
              Value() == T.Enter(old(frames), lower, f, lower[index + 1..], open)
    {
      hide Pushed, T.Enter;
      ghost var lower := T.Resize(stack, index + 1 + count);
      CopyAbove(index, count, f);
      PushedEnters(Value(), lower, lower[index + 1..], f);
      PushClosure(index + 1 + count, count, f);
    }

    method CopyAbove(index: nat, count: nat, f: T.Function)
      requires index < |stack|
      modifies this`stack
      ensures var lower := T.Resize(old(stack), index + 1 + count);
              stack == lower + [T.FunctionValue(f)] + lower[index + 1..]
              && stack[..index + 1 + count + 1] == lower + [T.FunctionValue(f)] && stack[index + 1 + count + 1..] == lower[index + 1..]
    {
      hide Put;
      var top := index + 1 + count;
      ghost var lower := T.Resize(stack, top);
      stack := T.Resize(stack, top + 1 + count);
      ghost var resized := stack;
      assert resized[..top] == lower && resized[index + 1..top] == lower[index + 1..];
      Copy(index + 1, top + 1, count);
      PutParts(resized, top + 1, lower[index + 1..]);
      assert stack[..top] == stack[..top + 1][..top] && resized[..top] == resized[..top + 1][..top];
      stack := stack[top := T.FunctionValue(f)];
    }

    method CallFunctionKeep(func: nat, count: nat, results: T.VarCount, callee: Option<T.Function>) returns (ok: bool)
      requires T.RunsLua(Value()) && T.CallFunctionKeep(Value(), func, count, results, callee).Some?
      modifies this
      ensures ok == !old(T.Last(frames).isVariable)
      ensures ok ==> T.CallFunctionKeep(old(Value()), func, count, results, callee) == Some(Value())
      ensures !ok ==> Value() == old(Value())
    {
      var f := frames[|frames| - 1];
      if f.isVariable {
        return false;
      }
      Expect(T.NormalReturn(results));
      match callee {
        case None => frames := frames + [T.ErrorFrame(T.BadCall)];
        case Some(callable) => CallCopy(f.base + func, count, callable);
      }
      ok := true;
    }

    /** Puts the function and its arguments where the popped frame's values were. */
    method TailClosure(bottom: nat, index: nat, count: nat, f: T.Function)
      requires f.Closure? && bottom < index && index + 1 + count <= |stack|
      requires count < f.proto.fixedParams ==> bottom + 1 + f.proto.fixedParams <= |stack|
      modifies this`stack, this`frames
      ensures Value() == T.TailClosure(old(Value()), bottom, f, old(stack)[index + 1..index + 1 + count])
    {
      hide Pushed, T.Enter, T.EnterPlain;
      ghost var values := stack[index + 1..index + 1 + count];
      MoveDown(bottom, index, count, f);
      if count > f.proto.fixedParams {
        TailExcess(bottom, count, f, values);
        assert old(stack)[..bottom] == old(stack)[..bottom + 1][..bottom];
      } else {
        SameBehind(stack, old(stack), bottom + 1 + count, bottom + 1 + f.proto.fixedParams);
        TailMissing(bottom, count, f, values);
      }
    }

    /** All arguments are in place, and some are varargs. */
    method TailExcess(bottom: nat, count: nat, f: T.Function, ghost values: seq<T.StackValue>)
      requires f.Closure? && bottom + 1 + count <= |stack| && |values| == count > f.proto.fixedParams
      requires stack[bottom] == T.FunctionValue(f) && stack[bottom + 1..bottom + 1 + count] == values
      modifies this`stack, this`frames
      ensures Value() == T.Enter(old(frames), old(stack)[..bottom], f, values, open)
    {
      hide Pushed, T.Enter;
      stack := stack[..bottom + 1 + count];
      assert stack[bottom + 1..] == values && stack[..bottom + 1] == old(stack)[..bottom] + [T.FunctionValue(f)];
      PushedEnters(Value(), old(stack)[..bottom], values, f);
      PushClosure(bottom, count, f);
    }

    /** All arguments are in place, and there are no varargs. */
    method TailMissing(bottom: nat, count: nat, f: T.Function, ghost values: seq<T.StackValue>)
      requires f.Closure? && bottom + 1 + count <= |stack| && |values| == count <= f.proto.fixedParams
      requires stack[bottom] == T.FunctionValue(f) && stack[bottom + 1..bottom + 1 + count] == values
      requires count < f.proto.fixedParams ==> bottom + 1 + f.proto.fixedParams <= |stack|
      modifies this`stack, this`frames
      ensures var params := bottom + 1 + f.proto.fixedParams;
              Value() == T.EnterPlain(old(frames), old(stack)[..bottom], f, values, old(stack)[params..], open)
    {
      hide Pushed, T.EnterPlain;
      ghost var lower, kept := stack[..bottom], stack[bottom + 1 + f.proto.fixedParams..];
      FillParameters(bottom, count, f.proto.fixedParams, values);
      assert stack[..bottom + 1] == old(stack)[..bottom + 1] == lower + [T.FunctionValue(f)];
      PushedPlain(Value(), lower, values, kept, f);
      PushClosure(bottom, count, f);
    }

    method MoveDown(bottom: nat, index: nat, count: nat, f: T.Function)
      requires bottom < index && index + 1 + count <= |stack|
      modifies this`stack
      ensures |stack| == |old(stack)| && stack[..bottom] == old(stack)[..bottom] && stack[bottom] == T.FunctionValue(f)
      ensures stack[bottom + 1..bottom + 1 + count] == old(stack)[index + 1..index + 1 + count]
      ensures stack[bottom + 1 + count..] == old(stack)[bottom + 1 + count..]
    {
      hide Put;
      stack := stack[bottom := T.FunctionValue(f)];
      ghost var was, values := stack, stack[index + 1..index + 1 + count];
      assert values == old(stack)[index + 1..index + 1 + count] && was[bottom + 1 + count..] == old(stack)[bottom + 1 + count..];
      Copy(index + 1, bottom + 1, count);
      PutParts(was, bottom + 1, values);
      assert stack[..bottom] == stack[..bottom + 1][..bottom] && was[..bottom + 1][..bottom] == old(stack)[..bottom];
      assert stack[bottom] == stack[..bottom + 1][bottom] && was[..bottom + 1][bottom] == T.FunctionValue(f);
      assert stack[bottom + 1..bottom + 1 + count] == stack[bottom + 1..][..count];
      assert stack[bottom + 1 + count..] == stack[bottom + 1..][count..];
    }

    /** Clears the missing parameters. */
    method FillParameters(bottom: nat, count: nat, fixed: nat, ghost values: seq<T.StackValue>)
      requires |values| == count <= fixed && (count < fixed ==> bottom + 1 + fixed <= |stack|) && bottom + 1 + count <= |stack|
      requires stack[bottom + 1..bottom + 1 + count] == values
      modifies this`stack
      ensures |stack| == |old(stack)| && stack[..bottom + 1] == old(stack)[..bottom + 1]
      ensures stack[bottom + 1..] == values + T.Nils(fixed - count) + old(stack)[bottom + 1 + fixed..]
    {
      hide Put;
      if count < fixed {
        Fill(bottom + 1 + count, fixed - count);
        PutParts(old(stack), bottom + 1 + count, T.Nils(fixed - count));
        ghost var at := bottom + 1 + count;
        assert stack[..bottom + 1] == stack[..at][..bottom + 1] && old(stack)[..bottom + 1] == old(stack)[..at][..bottom + 1];
        assert stack[bottom + 1..at] == stack[..at][bottom + 1..] && old(stack)[..at][bottom + 1..] == values;
        assert stack[bottom + 1..] == stack[bottom + 1..at] + stack[at..];
      }
    }

    method TailCallback(bottom: nat, index: nat, count: nat, c: nat)
      requires bottom < index && index + 1 + count <= |stack|
      modifies this`stack, this`frames
      ensures frames == old(frames) + [T.CallbackFrame(bottom, c)]
      ensures stack == old(stack)[..bottom] + old(stack)[index + 1..index + 1 + count]
    {
      hide Put;
      ghost var values := stack[index + 1..index + 1 + count];
      Copy(index + 1, bottom, count);
      PutParts(old(stack), bottom, values);
      stack := stack[..bottom + count];
      frames := frames + [T.CallbackFrame(bottom, c)];
    }

    method TailCallFunction(func: nat, args: T.VarCount, callee: Option<T.Function>) returns (ok: bool)
      requires T.RunsLua(Value()) && T.Last(frames).bottom < T.Last(frames).base
      requires T.TailCallFunction(Value(), func, args, callee).Some?
      modifies this
      ensures ok == (old(T.Last(frames).isVariable) == args.None?)
      ensures ok ==> T.TailCallFunction(old(Value()), func, args, callee) == Some(Value())
      ensures !ok ==> Value() == old(Value())
    {
      hide T.TailClosure;
      var f := frames[|frames| - 1];
      if f.isVariable != args.None? {
        return false;
      }
      ok := true;
      var index := f.base + func;
      var count := if args.Some? then args.value else |stack| - index - 1;
      match callee {
        case None => frames := frames + [T.ErrorFrame(T.BadCall)];
        case Some(callable) =>
          CloseUpvalues(f.bottom);
          frames := frames[..|frames| - 1];
          match callable {
            case Closure(_, _) => TailClosure(f.bottom, index, count, callable);
            case Callback(c) => TailCallback(f.bottom, index, count, c);
          }
      }
    }

    method CallMetaFunction(args: seq<T.StackValue>, meta: T.MetaReturn, callee: Option<T.Function>) returns (ok: bool)
      requires T.RunsLua(Value()) && (!T.Last(frames).isVariable ==> |stack| == T.Last(frames).base + T.Last(frames).stackSize)
      modifies this
      ensures ok == !old(T.Last(frames).isVariable)
      ensures ok ==> T.CallMetaFunction(old(Value()), args, meta, callee) == Some(Value())
      ensures !ok ==> Value() == old(Value())
    {
      var f := frames[|frames| - 1];
      if f.isVariable {
        return false;
      }
      Expect(T.MetaMethod(meta));
      match callee {
        case None => frames := frames + [T.ErrorFrame(T.BadCall)];
        case Some(Closure(_, _)) =>
          hide Pushed, T.Enter;
          ghost var lower := stack;
          assert T.Resize(lower, f.base + f.stackSize) == lower;
          stack := stack + [T.FunctionValue(callee.value)] + args;
          assert stack[..|lower| + 1] == lower + [T.FunctionValue(callee.value)] && stack[|lower| + 1..] == args;
          PushedEnters(Value(), lower, args, callee.value);
          PushClosure(f.base + f.stackSize, |args|, callee.value);
        case Some(Callback(c)) =>
          stack := stack + args;
          frames := frames + [T.CallbackFrame(f.base + f.stackSize, c)];
      }
      ok := true;
    }

    // Returns.

    /** What the metamethod's caller does with its one value. */
    method FinishMeta(f: T.Frame, meta: T.MetaReturn, v: T.StackValue)
      requires f.Lua? && T.FinishMeta(Value(), f, meta, v).Some?
      modifies this
      ensures T.FinishMeta(old(Value()), f, meta, v) == Some(Value())
    {
      var g := f.(isVariable := false, expected := None);
      match meta {
        case NoResult =>
        case ToRegister(r) => stack := stack[f.base + r := v];
        case SkipIf(skip) =>
          if T.Truthy(v) == skip {
            g := g.(pc := g.pc + 1);
          }
      }
      frames := frames + [g];
    }

    method ReturnTo(bottom: nat)
      requires T.ReturnTo(Value(), bottom).Some?
      modifies this
      ensures T.ReturnTo(old(Value()), bottom) == Some(Value())
    {
      if frames == [] {
        frames := [T.ResultFrame(bottom)];
      } else if frames[|frames| - 1].Lua? {
        var f := frames[|frames| - 1];
        frames := frames[..|frames| - 1];
        match f.expected.value {
          case NormalReturn(count) =>
            var length := if count.Some? then count.value else |stack| - bottom;
            stack := T.Truncate(stack, bottom + length);
            if count.Some? {
              stack := T.Resize(stack, f.base + f.stackSize);
            }
            frames := frames + [f.(isVariable := count.None?, expected := None)];
          case MetaMethod(meta) =>
            var v := if bottom < |stack| then stack[bottom] else T.NilValue;
            stack := T.Resize(T.Truncate(stack, bottom), f.base + f.stackSize);
            FinishMeta(f, meta, v);
        }
      }
    }

    method TakeResult() returns (taken: T.Taken)
      requires T.TakeResult(Value()).Some?
      modifies this
      ensures T.TakeResult(old(Value())) == Some((Value(), taken))
    {
      var f := frames[|frames| - 1];
      frames := frames[..|frames| - 1];
      if f.ResultFrame? {
        taken := T.Values(stack[f.bottom..]);
        stack := stack[..f.bottom];
      } else {
        taken := T.Failure(f.error);
      }
    }

    /** Moves `count` returned values down to `bottom`, as many of them as `results` asks for, and pads with nil. */
    method MoveResults(start: nat, count: nat, bottom: nat, results: T.VarCount)
      requires bottom <= start && start + count <= |stack|
      modifies this`stack
      ensures stack == old(stack)[..bottom] + T.Delivered(old(stack)[start..start + count], results)
    {
      var returning := if results.Some? then results.value else count;
      var moved := if returning < count then returning else count;
      ghost var lower, values := stack[..bottom], stack[start..start + count];
      hide Put;
      Copy(start, bottom, moved);
      assert old(stack)[start..start + moved] == values[..moved];
      PutParts(old(stack), bottom, values[..moved]);
      ghost var copied := stack;
      stack := T.Resize(stack, bottom + returning);
      assert stack[..bottom + moved] == copied[..bottom + moved] == lower + values[..moved];
      if count < returning {
        ghost var resized := stack;
        Fill(bottom + count, returning - count);
        PutParts(resized, bottom + count, T.Nils(returning - count));
        assert stack == stack[..bottom + count] + stack[bottom + count..];
        assert stack == lower + values + T.Nils(returning - count);
        assert lower + values + T.Nils(returning - count) == lower + T.Delivered(values, results);
      } else {
        assert stack == lower + T.Delivered(values, results);
      }
    }

    method ReturnUpper(start: nat, count: T.VarCount) returns (ok: bool)
      requires T.RunsLua(Value()) && T.ReturnUpper(Value(), start, count).Some?
      modifies this
      ensures ok == (old(T.Last(frames).isVariable) == count.None?)
      ensures ok ==> T.ReturnUpper(old(Value()), start, count) == Some(Value())
      ensures !ok ==> Value() == old(Value()).(frames := T.Pop(old(frames)))
    {
      hide T.ReturnValues, T.CloseUpvalues;
      var f := frames[|frames| - 1];
      frames := frames[..|frames| - 1];
      if f.isVariable != count.None? {
        return false;
      }
      CloseUpvalues(f.bottom);
      var first := f.base + start;
      var n := if count.Some? then count.value else |stack| - first;
      ReturnValues(f.bottom, first, n);
      ok := true;
    }

    method ReturnValues(bottom: nat, first: nat, n: nat)
      requires bottom <= first && first + n <= |stack| && T.ReturnValues(Value(), bottom, stack[first..first + n]).Some?
      modifies this
      ensures T.ReturnValues(old(Value()), bottom, old(stack)[first..first + n]) == Some(Value())
    {
      hide T.FinishMeta;
      ghost var values := stack[first..first + n];
      if frames == [] {
        MoveResults(first, n, bottom, None);
        assert stack == values;
        frames := [T.ResultFrame(bottom)];
      } else {
        var f := frames[|frames| - 1];
        if f.Sequence? {
          MoveResults(first, n, bottom, None);
        } else {
          frames := frames[..|frames| - 1];
          match f.expected.value {
            case NormalReturn(results) =>
              MoveResults(first, n, bottom, results);
              if results.Some? {
                stack := T.Resize(stack, f.base + f.stackSize);
              }
              frames := frames + [f.(isVariable := results.None?, expected := None)];
            case MetaMethod(meta) =>
              var v := if n > 0 then stack[first] else T.NilValue;
              stack := T.Resize(stack, f.base + f.stackSize);
              FinishMeta(f, meta, v);
          }
        }
      }
    }
  }
}
