/** Where calls put arguments and returns put results on the value stack. */
module ThreadLayout {
  import opened Values
  import opened Threads

  function ExcessArgs(args: seq<StackValue>, fixed: nat): seq<StackValue> {
    if |args| > fixed then args[fixed..] else []
  }

  function FixedArgs(args: seq<StackValue>, fixed: nat): seq<StackValue> {
    if |args| > fixed then args[..fixed] else args
  }

  /** The top frame is a call of `f` on the stack `lower`: behind the function come its varargs, and
      then its registers, which hold the other arguments in order and otherwise nil. */
  ghost predicate Receives(t: Thread, lower: seq<StackValue>, f: Function, args: seq<StackValue>) {
    f.Closure? && RunsLua(t)
    && var excess := ExcessArgs(args, f.proto.fixedParams);
    && Last(t.frames) == NewLua(|lower|, |lower| + 1 + |excess|, f.proto.stackSize)
    && t.stack == lower + [FunctionValue(f)] + excess + Resize(FixedArgs(args, f.proto.fixedParams), f.proto.stackSize)
  }

  lemma ResizeSuffix(a: seq<StackValue>, b: seq<StackValue>, n: nat)
    ensures Resize(a + b, |a| + n) == a + Resize(b, n)
  {
    var l, r := Resize(a + b, |a| + n), a + Resize(b, n);
    forall i | 0 <= i < |l| ensures l[i] == r[i] {
      if i < |a| {
        assert (a + b)[i] == a[i];
      } else if i < |a + b| {
        assert (a + b)[i] == b[i - |a|];
      }
    }
  }

  lemma EnterReceives(frames: seq<Frame>, lower: seq<StackValue>, f: Function, args: seq<StackValue>, open: set<nat>)
    requires f.Closure?
    ensures Receives(Enter(frames, lower, f, args, open), lower, f, args)
  {
    var fixed := f.proto.fixedParams;
    var front := lower + [FunctionValue(f)] + ExcessArgs(args, fixed);
    assert lower + [FunctionValue(f)] + Rotated(args, fixed) == front + FixedArgs(args, fixed);
    ResizeSuffix(front, FixedArgs(args, fixed), f.proto.stackSize);
  }

  /** `push_call` passes all values from `bottom` on. */
  lemma PushCallLayout(t: Thread, bottom: nat, f: Function)
    requires f.Closure? && bottom <= |t.stack|
    ensures PushCall(t, bottom, f).Some?
    ensures var u := PushCall(t, bottom, f).value;
            Receives(u, t.stack[..bottom], f, t.stack[bottom..]) && Pop(u.frames) == t.frames
  {
    EnterReceives(t.frames, t.stack[..bottom], f, t.stack[bottom..], t.open);
  }

  /** `call_function_keep` leaves the function and its arguments where they are, and calls above them. */
  lemma CallFunctionKeepLayout(t: Thread, func: nat, args: nat, results: VarCount, f: Function)
    requires RunsLua(t) && f.Closure?
    requires var index := Last(t.frames).base + func; index + 1 + args <= |t.stack|
    ensures CallFunctionKeep(t, func, args, results, Some(f)).Some?
    ensures var u := CallFunctionKeep(t, func, args, results, Some(f)).value;
            var index := Last(t.frames).base + func;
            var top := index + 1 + args;
            Receives(u, t.stack[..top], f, t.stack[index + 1..top]) && Pop(u.frames) == Expecting(t, NormalReturn(results))
  {
    hide Receives;
    var index := Last(t.frames).base + func;
    var top := index + 1 + args;
    assert t.stack[..top][index + 1..top] == t.stack[index + 1..top];
    EnterReceives(Expecting(t, NormalReturn(results)), t.stack[..top], f, t.stack[index + 1..top], t.open);
  }

  /** `call_meta_function` calls above all registers of the frame. */
  lemma CallMetaFunctionLayout(t: Thread, args: seq<StackValue>, meta: MetaReturn, f: Function)
    requires RunsLua(t) && f.Closure? && |t.stack| == Last(t.frames).base + Last(t.frames).stackSize
    ensures CallMetaFunction(t, args, meta, Some(f)).Some?
    ensures var u := CallMetaFunction(t, args, meta, Some(f)).value;
            Receives(u, t.stack, f, args) && Pop(u.frames) == Expecting(t, MetaMethod(meta))
  {
    hide Receives;
    assert t.stack[..|t.stack|] == t.stack;
    EnterReceives(Expecting(t, MetaMethod(meta)), t.stack, f, args, t.open);
  }

  /** As `Receives`, but only the first `present` registers are known. */
  ghost predicate ReceivesParameters(t: Thread, lower: seq<StackValue>, f: Function, args: seq<StackValue>, present: nat) {
    f.Closure? && RunsLua(t)
    && var front := lower + [FunctionValue(f)] + ExcessArgs(args, f.proto.fixedParams);
    && Last(t.frames) == NewLua(|lower|, |front|, f.proto.stackSize)
    && |t.stack| == |front| + f.proto.stackSize
    && t.stack[..|front|] == front
    && (present <= f.proto.stackSize ==>
          t.stack[|front|..|front| + present] == Resize(FixedArgs(args, f.proto.fixedParams), present))
  }

  /** A stack that starts with the function and its rotated arguments passes them on. */
  lemma ParametersPassed(frames: seq<Frame>, open: set<nat>, lower: seq<StackValue>, f: Function, args: seq<StackValue>, padding: seq<StackValue>, rest: seq<StackValue>)
    requires f.Closure? && (forall i :: 0 <= i < |padding| ==> padding[i] == NilValue)
    requires |args| > f.proto.fixedParams ==> padding == [] && rest == []
    ensures var front := lower + [FunctionValue(f)] + ExcessArgs(args, f.proto.fixedParams);
            var stack := Resize(lower + [FunctionValue(f)] + Rotated(args, f.proto.fixedParams) + padding + rest, |front| + f.proto.stackSize);
            ReceivesParameters(Thread(frames + [NewLua(|lower|, |front|, f.proto.stackSize)], stack, open),
                               lower, f, args, Min(|args|, f.proto.fixedParams) + |padding|)
  {
    var fixed := f.proto.fixedParams;
    var front := lower + [FunctionValue(f)] + ExcessArgs(args, fixed);
    var registers := FixedArgs(args, fixed) + padding;
    assert lower + [FunctionValue(f)] + Rotated(args, fixed) + padding + rest == front + (registers + rest);
    ResizeSuffix(front, registers + rest, f.proto.stackSize);
    Concatenated(front, Resize(registers + rest, f.proto.stackSize));
    ResizedPrefix(FixedArgs(args, fixed), padding, rest, f.proto.stackSize);
  }

  lemma Concatenated(a: seq<StackValue>, b: seq<StackValue>)
    ensures (a + b)[..|a|] == a
    ensures forall n :: 0 <= n <= |b| ==> (a + b)[|a|..|a| + n] == b[..n]
  {
  }

  lemma ResizedPrefix(a: seq<StackValue>, padding: seq<StackValue>, rest: seq<StackValue>, n: nat)
    requires forall i :: 0 <= i < |padding| ==> padding[i] == NilValue
    ensures |a + padding| <= n ==> Resize(a + padding + rest, n)[..|a + padding|] == Resize(a, |a + padding|)
  {
  }

  lemma TailClosureLayout(t: Thread, bottom: nat, f: Function, values: seq<StackValue>)
    requires f.Closure? && bottom + 1 + f.proto.fixedParams <= |t.stack|
    ensures var u := TailClosure(t, bottom, f, values);
            ReceivesParameters(u, t.stack[..bottom], f, values, f.proto.fixedParams) && Pop(u.frames) == t.frames
  {
    hide ReceivesParameters;
    var lower, fixed := t.stack[..bottom], f.proto.fixedParams;
    if |values| > fixed {
      ParametersPassed(t.frames, t.open, lower, f, values, [], []);
      assert lower + [FunctionValue(f)] + Rotated(values, fixed) + [] + [] == lower + [FunctionValue(f)] + Rotated(values, fixed);
    } else {
      var padding, kept := Nils(fixed - |values|), t.stack[bottom + 1 + fixed..];
      ParametersPassed(t.frames, t.open, lower, f, values, padding, kept);
      assert lower + [FunctionValue(f)] + values + padding + kept == lower + [FunctionValue(f)] + (values + padding + kept);
    }
  }

  /** A tail call that does not panic passes all its arguments, and nil for each missing one. */
  lemma TailCallLayout(t: Thread, func: nat, args: VarCount, f: Function)
    requires RunsLua(t) && f.Closure?
    requires var index := Last(t.frames).base + func;
             Last(t.frames).bottom <= index < |t.stack| && (args.Some? ==> index + 1 + args.value <= |t.stack|)
    ensures TailCallFunction(t, func, args, Some(f)).Some? ==>
              var u := TailCallFunction(t, func, args, Some(f)).value;
              var index, bottom := Last(t.frames).base + func, Last(t.frames).bottom;
              var count := if args.Some? then args.value else |t.stack| - index - 1;
              ReceivesParameters(u, t.stack[..bottom], f, t.stack[index + 1..index + 1 + count], f.proto.fixedParams)
              && Pop(u.frames) == Pop(t.frames)
  {
    hide ReceivesParameters, TailClosure;
    if TailCallFunction(t, func, args, Some(f)).Some? {
      var index, bottom := Last(t.frames).base + func, Last(t.frames).bottom;
      var count := if args.Some? then args.value else |t.stack| - index - 1;
      TailClosureLayout(Thread(Pop(t.frames), t.stack, CloseUpvalues(t.open, bottom)), bottom, f, t.stack[index + 1..index + 1 + count]);
    }
  }

  /** With its operands in range, a tail call panics exactly when it passes fewer arguments than a closure
      has parameters and the parameters reach past the end of the stack. */
  lemma TailCallPanics(t: Thread, func: nat, args: VarCount, callee: Option<Function>)
    requires RunsLua(t)
    requires var index := Last(t.frames).base + func;
             Last(t.frames).bottom <= index < |t.stack| && (args.Some? ==> index + 1 + args.value <= |t.stack|)
    ensures var index := Last(t.frames).base + func;
            var count := if args.Some? then args.value else |t.stack| - index - 1;
            TailCallFunction(t, func, args, callee).None?
            <==> callee.Some? && callee.value.Closure? && count < callee.value.proto.fixedParams
                 && Last(t.frames).bottom + 1 + callee.value.proto.fixedParams > |t.stack|
  {
  }

  /** `return f()` in a main chunk with two registers, where `f` has five parameters: a panic. */
  lemma TailCallPanic()
    ensures var f := Closure(1, Prototype(5, 5));
            var chunk := Closure(0, Prototype(0, 2));
            var t := Thread([NewLua(0, 1, 2)], [FunctionValue(chunk), FunctionValue(f), FunctionValue(f)], {});
            TailCallFunction(t, 1, Some(0), Some(f)) == None
  {
  }

  lemma CallAtLayout(t: Thread, index: nat, count: nat, f: Function)
    requires f.Closure? && index + 1 + count <= |t.stack|
    ensures var u := CallAt(t, index, count, f);
            ReceivesParameters(u, t.stack[..index], f, t.stack[index + 1..index + 1 + count], Min(count, f.proto.fixedParams))
            && Pop(u.frames) == t.frames
  {
    hide ReceivesParameters;
    var lower, values, fixed := t.stack[..index], t.stack[index + 1..index + 1 + count], f.proto.fixedParams;
    if count > fixed {
      ParametersPassed(t.frames, t.open, lower, f, values, [], []);
      assert lower + [FunctionValue(f)] + Rotated(values, fixed) + [] + [] == lower + [FunctionValue(f)] + Rotated(values, fixed);
    } else {
      var rest := t.stack[index + 1 + count..];
      ParametersPassed(t.frames, t.open, lower, f, values, [], rest);
      assert lower + [FunctionValue(f)] + values + [] + rest == lower + [FunctionValue(f)] + t.stack[index + 1..];
    }
  }

  /** `call_function` passes the arguments given, and any excess ones as varargs. */
  lemma CallFunctionLayout(t: Thread, func: nat, args: VarCount, results: VarCount, f: Function)
    requires RunsLua(t) && f.Closure?
    requires var index := Last(t.frames).base + func;
             index < |t.stack| && (args.Some? ==> index + 1 + args.value <= |t.stack|)
    ensures CallFunction(t, func, args, results, Some(f)).Some?
    ensures var u := CallFunction(t, func, args, results, Some(f)).value;
            var index := Last(t.frames).base + func;
            var count := if args.Some? then args.value else |t.stack| - index - 1;
            ReceivesParameters(u, t.stack[..index], f, t.stack[index + 1..index + 1 + count], Min(count, f.proto.fixedParams))
            && Pop(u.frames) == Expecting(t, NormalReturn(results))
  {
    hide ReceivesParameters, CallAt;
    var index := Last(t.frames).base + func;
    var count := if args.Some? then args.value else |t.stack| - index - 1;
    CallAtLayout(t.(frames := Expecting(t, NormalReturn(results))), index, count, f);
  }

  /** A missing argument of `call_function` is nil exactly when the stack slot it would have been in held
      nil or did not exist: the source does not clear it. */
  lemma MissingArgument(t: Thread, func: nat, args: VarCount, results: VarCount, f: Function, i: nat)
    requires RunsLua(t) && f.Closure?
    requires var index := Last(t.frames).base + func;
             index < |t.stack| && (args.Some? ==> index + 1 + args.value <= |t.stack|)
    requires var index := Last(t.frames).base + func;
             var count := if args.Some? then args.value else |t.stack| - index - 1;
             count <= i < f.proto.fixedParams && i < f.proto.stackSize
    ensures var index := Last(t.frames).base + func;
            var u := CallFunction(t, func, args, results, Some(f)).value;
            index + 1 + i < |u.stack| && Last(u.frames).base == index + 1
            && (u.stack[index + 1 + i] == NilValue <==> index + 1 + i >= |t.stack| || t.stack[index + 1 + i] == NilValue)
  {
    var index := Last(t.frames).base + func;
    var all := t.stack[..index] + [FunctionValue(f)] + t.stack[index + 1..];
    assert |all| == |t.stack|;
    assert index + 1 + i < |all| ==> all[index + 1 + i] == t.stack[index + 1 + i];
  }

  /** A call `f(true)` of a two-parameter function that sees a stale value as its second parameter. */
  lemma StaleArgument()
    ensures var f := Closure(0, Prototype(2, 2));
            var caller := NewLua(0, 1, 3);
            var t := Thread([caller], [FunctionValue(f), FunctionValue(f), BoolValue(true), OtherValue(7)], {});
            var u := CallFunction(t, 0, Some(1), Some(0), Some(f)).value;
            u.stack[Last(u.frames).base + 1] == OtherValue(7)
  {
  }

  // Varargs.

  function VarArgsOf(t: Thread): seq<StackValue>
    requires RunsLua(t) && Last(t.frames).bottom < Last(t.frames).base <= |t.stack|
  {
    t.stack[Last(t.frames).bottom + 1..Last(t.frames).base]
  }

  /** The `VarArgs` operation: the frame's varargs from register `dest` on. */
  function VarArgs(t: Thread, dest: nat, count: VarCount): Option<Thread>
    requires RunsLua(t) && Last(t.frames).bottom < Last(t.frames).base <= |t.stack|
  {
    var f := Last(t.frames);
    var start := f.base + dest;
    if count.Some? then
      if count.value > 0 && start + count.value > |t.stack| then None
      else
        var end := start + count.value;
        Some(t.(stack := if count.value == 0 then t.stack
                         else t.stack[..start] + Delivered(VarArgsOf(t), count) + t.stack[end..]))
    else
      Some(t.(frames := Pop(t.frames) + [f.(isVariable := true)],
              stack := Resize(t.stack, start) + VarArgsOf(t)))
  }

  /** A callee reads back exactly the excess arguments of its call, in order, truncated or padded with
      nil to the number it asks for; nothing below the destination changes. */
  lemma VarArgsReadBack(t: Thread, lower: seq<StackValue>, f: Function, args: seq<StackValue>, u: Thread, dest: nat, count: VarCount)
    requires Receives(t, lower, f, args)
    requires u.frames == t.frames && Last(t.frames).base <= |u.stack|
    requires u.stack[..Last(t.frames).base] == t.stack[..Last(t.frames).base]
    requires count.Some? ==> Last(t.frames).base + dest + count.value <= |u.stack|
    requires count.None? ==> Last(t.frames).base + dest <= |u.stack|
    ensures VarArgs(u, dest, count).Some?
    ensures var v := VarArgs(u, dest, count).value;
            var start := Last(t.frames).base + dest;
            var wanted := Delivered(ExcessArgs(args, f.proto.fixedParams), count);
            start + |wanted| <= |v.stack| && v.stack[start..start + |wanted|] == wanted
            && v.stack[..start] == u.stack[..start]
            && (count.Some? ==> v.stack[start + |wanted|..] == u.stack[start + |wanted|..])
            && (count.None? ==> |v.stack| == start + |wanted| && Last(v.frames).isVariable)
  {
    var base := Last(t.frames).base;
    var excess := ExcessArgs(args, f.proto.fixedParams);
    assert VarArgsOf(u) == u.stack[..base][|lower| + 1..];
    assert t.stack[..base] == lower + [FunctionValue(f)] + excess;
    assert VarArgsOf(u) == excess;
  }

  // Returns.

  /** The values `values` have been delivered to the Lua frame `f` at stack index `at`, as many as it
      expected: the frame's registers below stay, and it goes on where it was. */
  ghost predicate Delivers(t: Thread, u: Thread, f: Frame, at: nat, values: seq<StackValue>, expected: VarCount)
    requires f.Lua?
  {
    var got := Delivered(values, expected);
    && u.frames != [] && Last(u.frames) == f.(isVariable := expected.None?, expected := None)
    && at + |got| <= |u.stack| && u.stack[at..at + |got|] == got
    && at <= |t.stack| && u.stack[..at] == t.stack[..at]
    && |u.stack| == if expected.None? then at + |got| else f.base + f.stackSize
  }

  /** `return_to` delivers the values from `bottom` on. */
  lemma ReturnToDelivers(t: Thread, bottom: nat, expected: VarCount)
    requires RunsLua(t) && Last(t.frames).expected == Some(NormalReturn(expected)) && bottom <= |t.stack|
    requires var f := Last(t.frames);
             expected.Some? ==> bottom + expected.value <= f.base + f.stackSize
    ensures ReturnTo(t, bottom).Some?
    ensures var u := ReturnTo(t, bottom).value;
            Pop(u.frames) == Pop(t.frames) && Delivers(t, u, Last(t.frames), bottom, t.stack[bottom..], expected)
  {
    var f := Last(t.frames);
    var u := ReturnTo(t, bottom).value;
    var got := Delivered(t.stack[bottom..], expected);
    if expected.None? {
      assert u.stack == t.stack;
    } else {
      forall i | 0 <= i < |got| ensures u.stack[bottom + i] == got[i] {
        assert bottom + i < |t.stack| ==> t.stack[bottom..][i] == t.stack[bottom + i];
      }
    }
  }

  /** `return_upper` to a Lua frame delivers the returned registers at the returning frame's bottom,
      which is where the called function was. */
  lemma ReturnUpperDelivers(t: Thread, start: nat, count: VarCount, expected: VarCount)
    requires RunsLua(t) && |t.frames| > 1 && Last(Pop(t.frames)).Lua?
    requires Last(Pop(t.frames)).expected == Some(NormalReturn(expected))
    requires var first := Last(t.frames).base + start;
             Last(t.frames).bottom <= first <= |t.stack| && (count.Some? ==> first + count.value <= |t.stack|)
    requires var f := Last(Pop(t.frames));
             expected.Some? ==> Last(t.frames).bottom + expected.value <= f.base + f.stackSize
    ensures ReturnUpper(t, start, count).Some?
    ensures var u := ReturnUpper(t, start, count).value;
            var first := Last(t.frames).base + start;
            var n := if count.Some? then count.value else |t.stack| - first;
            Pop(u.frames) == Pop(Pop(t.frames))
            && Delivers(t, u, Last(Pop(t.frames)), Last(t.frames).bottom, t.stack[first..first + n], expected)
  {
    hide ReturnValues, Delivers;
    var f, first := Last(t.frames), Last(t.frames).base + start;
    var n := if count.Some? then count.value else |t.stack| - first;
    var rest := Thread(Pop(t.frames), t.stack, CloseUpvalues(t.open, f.bottom));
    ReturnValuesDelivers(rest, f.bottom, t.stack[first..first + n], expected);
    var u := ReturnValues(rest, f.bottom, t.stack[first..first + n]).value;
    DeliversStack(rest, t, u, Last(rest.frames), f.bottom, t.stack[first..first + n], expected);
  }

  lemma DeliversStack(t: Thread, t': Thread, u: Thread, f: Frame, at: nat, values: seq<StackValue>, expected: VarCount)
    requires f.Lua? && Delivers(t, u, f, at, values, expected) && t'.stack == t.stack
    ensures Delivers(t', u, f, at, values, expected)
  {
  }

  lemma ReturnValuesDelivers(t: Thread, bottom: nat, values: seq<StackValue>, expected: VarCount)
    requires RunsLua(t) && Last(t.frames).expected == Some(NormalReturn(expected)) && bottom <= |t.stack|
    requires var f := Last(t.frames);
             expected.Some? ==> bottom + expected.value <= f.base + f.stackSize
    ensures ReturnValues(t, bottom, values).Some?
    ensures var u := ReturnValues(t, bottom, values).value;
            Pop(u.frames) == Pop(t.frames) && Delivers(t, u, Last(t.frames), bottom, values, expected)
  {
  }

  /** A call followed by a return: the results are where the function was, and below it the caller's
      registers are as they were, whatever the callee does to its own registers. */
  lemma CallThenReturn(t: Thread, func: nat, args: VarCount, expected: VarCount, f: Function, called: Thread, callee: Thread, start: nat, count: VarCount)
    requires RunsLua(t) && f.Closure? && CallFunction(t, func, args, expected, Some(f)) == Some(called)
    requires var index := Last(t.frames).base + func;
             index < |t.stack| && (args.Some? ==> index + 1 + args.value <= |t.stack|)
             && (expected.Some? ==> func + expected.value <= Last(t.frames).stackSize)
    requires var index := Last(t.frames).base + func;
             RunsLua(called) && RunsLua(callee) && Pop(callee.frames) == Pop(called.frames)
             && Last(callee.frames).bottom == index && Last(callee.frames).base == Last(called.frames).base
             && index <= |callee.stack| && callee.stack[..index] == called.stack[..index]
    requires var first := Last(callee.frames).base + start;
             first <= |callee.stack| && (count.Some? ==> first + count.value <= |callee.stack|)
    ensures ReturnUpper(callee, start, count).Some?
    ensures var u := ReturnUpper(callee, start, count).value;
            var first := Last(callee.frames).base + start;
            var n := if count.Some? then count.value else |callee.stack| - first;
            var index := Last(t.frames).base + func;
            Pop(u.frames) == Pop(t.frames)
            && Delivers(t, u, Last(t.frames).(expected := None), index, callee.stack[first..first + n], expected)
  {
    hide ReturnUpper, CallFunction, ReceivesParameters, Delivers;
    var index := Last(t.frames).base + func;
    var passed := if args.Some? then args.value else |t.stack| - index - 1;
    CallFunctionLayout(t, func, args, expected, f);
    FrontKeeps(called, t.stack[..index], f,
               t.stack[index + 1..index + 1 + passed], Min(passed, f.proto.fixedParams));
    ReturnUpperDelivers(callee, start, count, expected);
    var u := ReturnUpper(callee, start, count).value;
    var first := Last(callee.frames).base + start;
    var n := if count.Some? then count.value else |callee.stack| - first;
    DeliversSame(t, callee, u, Last(t.frames), index, callee.stack[first..first + n], expected);
  }

  lemma DeliversSame(t: Thread, callee: Thread, u: Thread, f: Frame, at: nat, values: seq<StackValue>, expected: VarCount)
    requires f.Lua? && Delivers(callee, u, f.(expected := Some(NormalReturn(expected))), at, values, expected)
    requires at <= |t.stack| && callee.stack[..at] == t.stack[..at]
    ensures Delivers(t, u, f.(expected := None), at, values, expected)
  {
  }

  lemma FrontKeeps(u: Thread, lower: seq<StackValue>, f: Function, args: seq<StackValue>, present: nat)
    requires ReceivesParameters(u, lower, f, args, present)
    ensures |lower| <= |u.stack| && u.stack[..|lower|] == lower
            && Last(u.frames).bottom == |lower| < Last(u.frames).base
  {
    var front := lower + [FunctionValue(f)] + ExcessArgs(args, f.proto.fixedParams);
    assert u.stack[..|lower|] == u.stack[..|front|][..|lower|];
  }
}
