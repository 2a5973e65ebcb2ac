/** Where results, errors and the arguments of callbacks go. */
module ThreadResults {
  import opened Values
  import opened Threads
  import opened ThreadLayout

  /** The thread `u` is one whose frames `frames` stood above the values `lower`, after `values` were returned to it. */
  ghost predicate Gets(u: Thread, frames: seq<Frame>, lower: seq<StackValue>, open: set<nat>, values: seq<StackValue>) {
    if frames == [] then u == Thread([ResultFrame(|lower|)], lower + values, open)
    else if frames[|frames| - 1].Sequence? then u == Thread(frames, lower + values, open)
    else
      var f := frames[|frames| - 1];
      f.Lua? && f.expected.Some? && u.frames != [] && u.frames[..|u.frames| - 1] == frames[..|frames| - 1] && u.open == open
      && match f.expected.value
         case NormalReturn(count) =>
           u.frames[|u.frames| - 1] == f.(isVariable := count.None?, expected := None) && GetsCount(u.stack, f, lower, values, count)
         case MetaMethod(meta) => GetsMeta(u, f, lower, if values == [] then NilValue else values[0], meta)
  }

  /** All values, or as many as expected with nil for missing ones, in the frame's registers. */
  ghost predicate GetsCount(stack: seq<StackValue>, f: Frame, lower: seq<StackValue>, values: seq<StackValue>, count: VarCount)
    requires f.Lua?
  {
    match count
    case None => stack == lower + values
    case Some(n) =>
      |stack| == f.base + f.stackSize
      && forall i :: 0 <= i < |stack| ==>
           stack[i] == if i < |lower| then lower[i] else if i - |lower| < |values| && i - |lower| < n then values[i - |lower|] else NilValue
  }

  /** One value in a register, for a test, or not at all; the other registers are as they were. */
  ghost predicate GetsMeta(u: Thread, f: Frame, lower: seq<StackValue>, v: StackValue, meta: MetaReturn)
    requires f.Lua? && u.frames != []
  {
    && |u.stack| == f.base + f.stackSize
    && (forall i :: 0 <= i < |u.stack| ==>
          u.stack[i] == if meta.ToRegister? && i == f.base + meta.reg then v else if i < |lower| then lower[i] else NilValue)
    && u.frames[|u.frames| - 1]
       == f.(isVariable := false, expected := None,
             pc := if meta.SkipIf? && meta.skip == (v != NilValue && v != BoolValue(false)) then f.pc + 1 else f.pc)
  }

  /** The frames can take results of an activation that began at `bottom`. */
  predicate Takes(frames: seq<Frame>, bottom: nat) {
    frames != [] ==>
      var f := frames[|frames| - 1];
      (f.Sequence? && f.bottom == bottom)
      || (f.Lua? && f.expected.Some? && (f.expected.value.MetaMethod? && f.expected.value.meta.ToRegister? ==> f.expected.value.meta.reg < f.stackSize))
  }

  lemma ReturnToGets(frames: seq<Frame>, lower: seq<StackValue>, open: set<nat>, values: seq<StackValue>)
    requires Takes(frames, |lower|)
    ensures var r := ReturnTo(Thread(frames, lower + values, open), |lower|);
            r.Some? && Gets(r.value, frames, lower, open, values)
  {
    if frames != [] && Last(frames).Lua? {
      hide Gets, ReturnTo;
      LuaGets(frames, lower, open, values);
    }
  }

  lemma LuaGets(frames: seq<Frame>, lower: seq<StackValue>, open: set<nat>, values: seq<StackValue>)
    requires frames != [] && Last(frames).Lua? && Takes(frames, |lower|)
    ensures var r := ReturnTo(Thread(frames, lower + values, open), |lower|);
            r.Some? && Gets(r.value, frames, lower, open, values)
  {
    hide GetsCount, GetsMeta, FinishNormal, FinishMeta;
    var f, rest := Last(frames), Pop(frames);
    match f.expected.value {
      case NormalReturn(count) => NormalGets(Thread(rest, lower + values, open), f, lower, values, count);
      case MetaMethod(meta) =>
        var stack := lower + values;
        assert Truncate(stack, |lower|) == lower && (|lower| < |stack| ==> stack[|lower|] == values[0]);
        MetaGets(Thread(rest, Resize(lower, f.base + f.stackSize), open), f, lower, if values == [] then NilValue else values[0], meta);
    }
  }

  lemma NormalGets(t: Thread, f: Frame, lower: seq<StackValue>, values: seq<StackValue>, count: VarCount)
    requires f.Lua? && t.stack == lower + values
    ensures var u := FinishNormal(t, f, |lower|, count);
            u.frames == t.frames + [f.(isVariable := count.None?, expected := None)] && u.open == t.open
            && GetsCount(u.stack, f, lower, values, count)
  {
  }

  lemma MetaGets(t: Thread, f: Frame, lower: seq<StackValue>, v: StackValue, meta: MetaReturn)
    requires f.Lua? && t.stack == Resize(lower, f.base + f.stackSize) && (meta.ToRegister? ==> meta.reg < f.stackSize)
    ensures var r := FinishMeta(t, f, meta, v);
            r.Some? && |r.value.frames| == |t.frames| + 1 && r.value.frames[..|t.frames|] == t.frames && r.value.open == t.open
            && GetsMeta(r.value, f, lower, v, meta)
  {
  }

  lemma UpperGets(t: Thread, f: Frame, lower: seq<StackValue>, values: seq<StackValue>, count: VarCount)
    requires f.Lua? && t.stack == lower
    ensures var u := FinishUpper(t, f, values, count);
            u.frames == t.frames + [f.(isVariable := count.None?, expected := None)] && u.open == t.open
            && GetsCount(u.stack, f, lower, values, count)
  {
  }

  /** What `return_upper` returns, out of the registers of the frame that goes. */
  function Returned(t: Thread, start: nat, count: VarCount): seq<StackValue>
    requires RunsLua(t) && Last(t.frames).base + start <= |t.stack|
    requires count.Some? ==> Last(t.frames).base + start + count.value <= |t.stack|
  {
    var first := Last(t.frames).base + start;
    if count.Some? then t.stack[first..first + count.value] else t.stack[first..]
  }

  /** The registers returned go to the frames below, which keep their values; the frame's upvalues close. A metamethod was
      called above all registers of its caller. */
  lemma ReturnUpperGets(t: Thread, start: nat, count: VarCount)
    requires RunsLua(t) && Last(t.frames).bottom <= Last(t.frames).base + start <= |t.stack|
    requires count.Some? ==> Last(t.frames).base + start + count.value <= |t.stack|
    requires Takes(Pop(t.frames), Last(t.frames).bottom) && (Pop(t.frames) == [] ==> Last(t.frames).bottom == 0)
    requires var rest := Pop(t.frames);
             rest != [] && Last(rest).Lua? && Last(rest).expected.value.MetaMethod? ==>
               Last(t.frames).bottom == Last(rest).base + Last(rest).stackSize
    ensures var bottom, r := Last(t.frames).bottom, ReturnUpper(t, start, count);
            r.Some? && Gets(r.value, t.frames[..|t.frames| - 1], t.stack[..bottom], (set x | x in t.open && x < bottom), Returned(t, start, count))
  {
    var bottom, values := Last(t.frames).bottom, Returned(t, start, count);
    assert t.stack[Last(t.frames).base + start..|t.stack|] == t.stack[Last(t.frames).base + start..];
    var u := Thread(Pop(t.frames), t.stack, CloseUpvalues(t.open, bottom));
    assert ReturnUpper(t, start, count) == ReturnValues(u, bottom, values);
    hide ReturnUpper, Returned, Gets;
    ValuesGet(u, bottom, values);
  }

  lemma ValuesGet(t: Thread, bottom: nat, values: seq<StackValue>)
    requires bottom <= |t.stack| && Takes(t.frames, bottom) && (t.frames == [] ==> bottom == 0)
    requires t.frames != [] && Last(t.frames).Lua? && Last(t.frames).expected.value.MetaMethod? ==>
               bottom == Last(t.frames).base + Last(t.frames).stackSize
    ensures var r := ReturnValues(t, bottom, values);
            r.Some? && Gets(r.value, t.frames, t.stack[..bottom], t.open, values)
  {
    if t.frames == [] {
      assert t.stack[..0] + values == values;
    } else if Last(t.frames).Lua? {
      hide Gets, ReturnValues;
      LuaValuesGet(t, bottom, values);
    }
  }

  lemma LuaValuesGet(t: Thread, bottom: nat, values: seq<StackValue>)
    requires t.frames != [] && Last(t.frames).Lua? && bottom <= |t.stack| && Takes(t.frames, bottom)
    requires Last(t.frames).expected.value.MetaMethod? ==> bottom == Last(t.frames).base + Last(t.frames).stackSize
    ensures var r := ReturnValues(t, bottom, values);
            r.Some? && Gets(r.value, t.frames, t.stack[..bottom], t.open, values)
  {
    hide GetsCount, GetsMeta, FinishUpper, FinishMeta;
    var f, rest, lower := Last(t.frames), Pop(t.frames), t.stack[..bottom];
    match f.expected.value {
      case NormalReturn(count) => UpperGets(Thread(rest, lower, t.open), f, lower, values, count);
      case MetaMethod(meta) =>
        assert Resize(t.stack, bottom) == lower == Resize(lower, bottom);
        MetaGets(Thread(rest, lower, t.open), f, lower, if values == [] then NilValue else values[0], meta);
    }
  }

  /** A thread's outermost function returns: the thread has exactly the registers returned as its result, and is empty when
      that has been taken. */
  lemma OutermostReturns(t: Thread, start: nat, count: VarCount)
    requires RunsLua(t) && |t.frames| == 1 && Last(t.frames).bottom == 0 && Last(t.frames).base + start <= |t.stack|
    requires count.Some? ==> Last(t.frames).base + start + count.value <= |t.stack|
    ensures var r := ReturnUpper(t, start, count);
            r.Some? && Mode(r.value) == Result && TakeResult(r.value) == Some((Thread([], [], {}), Values(Returned(t, start, count))))
    ensures Mode(Thread([], [], {})) == Stopped
  {
    ReturnUpperGets(t, start, count);
    var u := ReturnUpper(t, start, count).value;
    assert Pop(t.frames) == [] && t.stack[..0] == [] && (set x | x in t.open && x < 0) == {};
    assert u == Thread([ResultFrame(0)], Returned(t, start, count), {});
  }

  // Resuming.

  /** The function `f` has just been called with exactly the values `args`: above the frames `frames` and the values
      `lower`, which are as they were. */
  ghost predicate Called(u: Thread, frames: seq<Frame>, lower: seq<StackValue>, open: set<nat>, f: Function, args: seq<StackValue>) {
    match f
    case Closure(_, _) => Receives(u, lower, f, args) && u.frames[..|u.frames| - 1] == frames && u.open == open
    case Callback(c) => u == Thread(frames + [CallbackFrame(|lower|, c)], lower + args, open)
  }

  lemma PushCallCalls(frames: seq<Frame>, lower: seq<StackValue>, open: set<nat>, f: Function, args: seq<StackValue>)
    ensures var r := PushCall(Thread(frames, lower + args, open), |lower|, f); r.Some? && Called(r.value, frames, lower, open, f, args)
  {
    var u := Thread(frames, lower + args, open);
    assert u.stack[..|lower|] == lower && u.stack[|lower|..] == args;
    if f.Closure? {
      PushCallLayout(u, |lower|, f);
    }
  }

  /** A thread that has not been started calls its function with the arguments. */
  lemma StartGets(f: Function, args: seq<StackValue>)
    ensures var r := Resume(Thread([StartFrame(f)], [], {}), args); r.Some? && Called(r.value, [], [], {}, f, args)
  {
    assert [] + args == args;
    PushCallCalls([], [], {}, f, args);
  }

  /** One that has yielded gets the arguments where it yielded. */
  lemma YieldedGets(frames: seq<Frame>, lower: seq<StackValue>, open: set<nat>, args: seq<StackValue>)
    requires Takes(frames, |lower|)
    ensures var r := Resume(Thread(frames + [Yielded], lower, open), args);
            r.Some? && Gets(r.value, frames, lower, open, args)
  {
    assert Pop(frames + [Yielded]) == frames;
    ReturnToGets(frames, lower, open, args);
  }

  lemma ResumedWithError(t: Thread, error: Error)
    requires Mode(t) == Suspended
    ensures ResumeErr(t, error) == Some(Thread(t.frames[..|t.frames| - 1] + [ErrorFrame(error)], t.stack, t.open))
  {
  }

  // Calls of callbacks.

  lemma TwoFrames(rest: seq<Frame>, f: Frame, g: Frame)
    ensures rest + [f] + [g] == rest + [f, g]
  {
  }

  /** A callback is called with exactly the arguments behind its bottom, and the function value is gone. */
  lemma CallbackGets(t: Thread, func: nat, args: VarCount, results: VarCount, c: nat)
    requires RunsLua(t) && Last(t.frames).base + func < |t.stack|
    requires args.Some? ==> Last(t.frames).base + func + 1 + args.value <= |t.stack|
    ensures var index := Last(t.frames).base + func;
            var given := if args.Some? then t.stack[index + 1..index + 1 + args.value] else t.stack[index + 1..];
            CallFunction(t, func, args, results, Some(Callback(c)))
            == Some(Thread(t.frames[..|t.frames| - 1] + [Last(t.frames).(expected := Some(NormalReturn(results))), CallbackFrame(index, c)],
                           t.stack[..index] + given, t.open))
  {
    var index := Last(t.frames).base + func;
    TwoFrames(Pop(t.frames), Last(t.frames).(expected := Some(NormalReturn(results))), CallbackFrame(index, c));
    var given := if args.Some? then args.value else |t.stack| - index - 1;
    assert Truncate(t.stack[..index] + t.stack[index + 1..], index + given) == t.stack[..index] + t.stack[index + 1..index + 1 + given];
    assert t.stack[index + 1..|t.stack|] == t.stack[index + 1..];
  }

  lemma CallbackKeepGets(t: Thread, func: nat, args: nat, results: VarCount, c: nat)
    requires RunsLua(t) && Last(t.frames).base + func + 1 + args <= |t.stack|
    ensures var index := Last(t.frames).base + func;
            var top := index + 1 + args;
            CallFunctionKeep(t, func, args, results, Some(Callback(c)))
            == Some(Thread(t.frames[..|t.frames| - 1] + [Last(t.frames).(expected := Some(NormalReturn(results))), CallbackFrame(top, c)],
                           t.stack[..top] + t.stack[index + 1..top], t.open))
  {
    TwoFrames(Pop(t.frames), Last(t.frames).(expected := Some(NormalReturn(results))), CallbackFrame(Last(t.frames).base + func + 1 + args, c));
  }

  lemma CallbackMetaGets(t: Thread, args: seq<StackValue>, meta: MetaReturn, c: nat)
    requires RunsLua(t)
    ensures var top := Last(t.frames).base + Last(t.frames).stackSize;
            CallMetaFunction(t, args, meta, Some(Callback(c)))
            == Some(Thread(t.frames[..|t.frames| - 1] + [Last(t.frames).(expected := Some(MetaMethod(meta))), CallbackFrame(top, c)],
                           t.stack + args, t.open))
  {
    TwoFrames(Pop(t.frames), Last(t.frames).(expected := Some(MetaMethod(meta))), CallbackFrame(Last(t.frames).base + Last(t.frames).stackSize, c));
  }

  /** In a tail call the callback takes the frame's place. */
  lemma CallbackTailGets(t: Thread, func: nat, args: VarCount, c: nat)
    requires RunsLua(t)
    requires var index := Last(t.frames).base + func;
             Last(t.frames).bottom <= index < |t.stack| && (args.Some? ==> index + 1 + args.value <= |t.stack|)
    ensures var index, bottom := Last(t.frames).base + func, Last(t.frames).bottom;
            var given := if args.Some? then t.stack[index + 1..index + 1 + args.value] else t.stack[index + 1..];
            TailCallFunction(t, func, args, Some(Callback(c)))
            == Some(Thread(t.frames[..|t.frames| - 1] + [CallbackFrame(bottom, c)], t.stack[..bottom] + given, (set x | x in t.open && x < bottom)))
  {
    var index := Last(t.frames).base + func;
    assert t.stack[index + 1..|t.stack|] == t.stack[index + 1..];
  }

  /** A value that cannot be called is an error of the caller. */
  lemma NothingCalled(t: Thread, func: nat, args: VarCount, kept: nat, values: seq<StackValue>, results: VarCount, meta: MetaReturn)
    requires RunsLua(t)
    requires var index := Last(t.frames).base + func;
             Last(t.frames).bottom <= index < |t.stack| && (args.Some? ==> index + 1 + args.value <= |t.stack|)
    ensures var f, rest := Last(t.frames), t.frames[..|t.frames| - 1];
            && CallFunction(t, func, args, results, None)
               == Some(Thread(rest + [f.(expected := Some(NormalReturn(results))), ErrorFrame(BadCall)], t.stack, t.open))
            && CallFunctionKeep(t, func, kept, results, None)
               == Some(Thread(rest + [f.(expected := Some(NormalReturn(results))), ErrorFrame(BadCall)], t.stack, t.open))
            && CallMetaFunction(t, values, meta, None)
               == Some(Thread(rest + [f.(expected := Some(MetaMethod(meta))), ErrorFrame(BadCall)], t.stack, t.open))
            && TailCallFunction(t, func, args, None) == Some(Thread(rest + [f, ErrorFrame(BadCall)], t.stack, t.open))
  {
    var f, rest := Last(t.frames), Pop(t.frames);
    assert t.frames == rest + [f];
    TwoFrames(rest, f, ErrorFrame(BadCall));
    TwoFrames(rest, f.(expected := Some(NormalReturn(results))), ErrorFrame(BadCall));
    TwoFrames(rest, f.(expected := Some(MetaMethod(meta))), ErrorFrame(BadCall));
  }
}
