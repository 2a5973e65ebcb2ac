/** One turn of a Lua frame: `run_vm` runs instructions of one activation until it calls, returns, fails
    or has used up its granule. Nothing is assumed about what the instructions compute. */
module LuaTurns {
  import opened Values
  import opened Threads
  import opened ThreadInvariant

  datatype Ending =
    | GoesOn
    | Raises(error: Error)
    | Calls(func: nat, args: VarCount, results: VarCount, callee: Option<Function>)
    | CallsKeep(func: nat, given: nat, results: VarCount, callee: Option<Function>)
    | CallsMeta(values: seq<StackValue>, meta: MetaReturn, callee: Option<Function>)
    | TailCalls(func: nat, args: VarCount, callee: Option<Function>)
    | Returns(start: nat, count: VarCount)

  /** The value stack, the captured slots and the counter when the last instruction is reached. */
  datatype LuaTurn = LuaTurn(stack: seq<StackValue>, open: set<nat>, isVariable: bool, pc: nat, ending: Ending)

  function Compute(t: Thread, turn: LuaTurn): Thread
    requires RunsLua(t)
  {
    Thread(Pop(t.frames) + [Last(t.frames).(isVariable := turn.isVariable, pc := turn.pc)], turn.stack, turn.open)
  }

  function End(t: Thread, ending: Ending): Option<Thread>
    requires RunsLua(t)
  {
    match ending
    case GoesOn => Some(t)
    case Raises(error) => Some(t.(frames := t.frames + [ErrorFrame(error)]))
    case Calls(func, args, results, callee) => CallFunction(t, func, args, results, callee)
    case CallsKeep(func, given, results, callee) => CallFunctionKeep(t, func, given, results, callee)
    case CallsMeta(values, meta, callee) => CallMetaFunction(t, values, meta, callee)
    case TailCalls(func, args, callee) => TailCallFunction(t, func, args, callee)
    case Returns(start, count) => ReturnUpper(t, start, count)
  }

  function RunLua(t: Thread, turn: LuaTurn): Option<Thread>
    requires RunsLua(t)
  {
    End(Compute(t, turn), turn.ending)
  }

  /** Instructions write the frame's own registers, and lower slots only through open upvalues. They
      capture and close registers of their own, and at least one of them has run. */
  ghost predicate ComputeOk(t: Thread, turn: LuaTurn)
    requires RunsLua(t)
  {
    var f, n := Last(t.frames), |turn.stack|;
    f.base <= n && f.base <= |t.stack| && turn.pc > 0
    && (!turn.isVariable ==> n == f.base + f.stackSize)
    && (forall x :: 0 <= x < f.base && turn.stack[x] != t.stack[x] ==> x in t.open && x < f.bottom)
    && (forall x :: x in turn.open ==> x < n && (x in t.open || x >= f.base))
    && (forall x :: x in t.open && x < f.base ==> x in turn.open)
  }

  /** The operands the compiler emits: registers of the frame, a variable count exactly when the stack
      is variable, and no captured slot among the registers that the callee takes over. */
  ghost predicate EndingOk(t: Thread, ending: Ending)
    requires RunsLua(t)
  {
    var f, n := Last(t.frames), |t.stack|;
    match ending
    case GoesOn => true
    case Raises(_) => true
    case Calls(func, args, _, _) =>
      func < f.stackSize && f.isVariable == args.None?
      && f.base + func + 1 + (if args.Some? then args.value else 0) <= n
      && forall x :: x in t.open ==> x < f.base + func
    case CallsKeep(func, given, _, _) =>
      !f.isVariable && func + 1 + given <= f.stackSize && forall x :: x in t.open ==> x < f.base + func + 1 + given
    case CallsMeta(_, meta, _) => !f.isVariable && (meta.ToRegister? ==> meta.reg < f.stackSize)
    case TailCalls(func, args, _) =>
      f.isVariable == args.None? && f.base + func + 1 + (if args.Some? then args.value else 0) <= n
    case Returns(start, count) =>
      f.isVariable == count.None? && f.base + start + (if count.Some? then count.value else 0) <= n
  }

  ghost predicate TurnOk(t: Thread, turn: LuaTurn)
    requires RunsLua(t)
  {
    ComputeOk(t, turn) && EndingOk(Compute(t, turn), turn.ending)
  }

  /** A tail call passes too few arguments to a function whose parameters reach past the end of the
      stack: the source's range for the missing parameters is then out of bounds. */
  predicate ShortTailCall(t: Thread, ending: Ending)
    requires RunsLua(t)
  {
    ending.TailCalls? && ending.callee.Some? && ending.callee.value.Closure?
    && var f, index := Last(t.frames), Last(t.frames).base + ending.func;
    && index < |t.stack|
    && var count := if ending.args.Some? then ending.args.value else |t.stack| - index - 1;
    && count < ending.callee.value.proto.fixedParams
    && f.bottom + 1 + ending.callee.value.proto.fixedParams > |t.stack|
  }

  /** Writes through open upvalues do not disturb waiting frames. */
  lemma {:induction false} WaitsWrites(frames: seq<Frame>, stack: seq<StackValue>, stack': seq<StackValue>, edge: nat)
    requires Waits(frames, stack, edge) && edge <= |stack| && edge <= |stack'|
    requires forall x :: 0 <= x < edge && stack'[x] != stack[x] ==> InRegisters(frames, x, edge)
    ensures Waits(frames, stack', edge)
    decreases |frames|
  {
    if frames != [] {
      var b, rest := Last(frames).bottom, Pop(frames);
      if Last(frames).Lua? && stack'[b] != stack[b] {
        InRegistersBelow(rest, stack, b, b);
      }
      WaitsWrites(rest, stack, stack', b);
    }
  }

  lemma ComputeGood(t: Thread, turn: LuaTurn)
    requires Good(t) && RunsLua(t) && ComputeOk(t, turn)
    ensures Good(Compute(t, turn))
  {
    var f, u := Last(t.frames), Compute(t, turn);
    var rest := Pop(t.frames);
    assert Pop(u.frames) == rest;
    WaitsWrites(rest, t.stack, turn.stack, f.bottom);
  }

  lemma ExpectingBelow(t: Thread, r: LuaReturn, edge: nat)
    requires Good(t) && RunsLua(t) && Last(t.frames).base <= edge <= |t.stack|
    requires var f := Last(t.frames);
             edge <= f.base + f.stackSize && f.pc > 0 && MetaOk(f.(expected := Some(r)))
    requires forall x :: x in t.open ==> x < edge
    ensures Below(Expecting(t, r), t.stack, t.open, edge)
  {
    var frames := Expecting(t, r);
    assert Pop(frames) == Pop(t.frames);
  }

  /** An error in a Lua frame, whatever the frame was told to expect. */
  lemma RaiseGood(t: Thread, frames: seq<Frame>, error: Error)
    requires Good(t) && RunsLua(t) && frames != [] && Pop(frames) == Pop(t.frames)
    requires Last(frames).Lua? && Last(frames).bottom == Last(t.frames).bottom && Last(frames).base == Last(t.frames).base
    ensures Resumed(Some(t.(frames := frames + [ErrorFrame(error)])))
  {
    OpenAbove(t.frames, frames, t.open, |t.stack|, |t.stack|);
    hide InRegisters, Waits;
    assert Pop(frames + [ErrorFrame(error)]) == frames;
  }

  /** The frame of a called closure, above `lower`, whatever its registers hold. */
  lemma CalledGood(frames: seq<Frame>, lower: seq<StackValue>, f: Function, above: seq<StackValue>, base: nat, open: set<nat>)
    requires f.Closure? && |lower| < base && Below(frames, lower, open, |lower|)
    ensures Resumed(Some(Thread(frames + [NewLua(|lower|, base, f.proto.stackSize)],
                                Resize(lower + [FunctionValue(f)] + above, base + f.proto.stackSize), open)))
  {
    var g := NewLua(|lower|, base, f.proto.stackSize);
    var stack := Resize(lower + [FunctionValue(f)] + above, base + f.proto.stackSize);
    assert Pop(frames + [g]) == frames;
    assert stack[..|lower|] == lower[..|lower|];
    WaitsSame(frames, lower, stack, |lower|);
    PushedOpen(frames, g, open, |lower|, |stack|);
  }

  lemma EnteredGood(frames: seq<Frame>, lower: seq<StackValue>, f: Function, args: seq<StackValue>, open: set<nat>)
    requires f.Closure? && Below(frames, lower, open, |lower|)
    ensures Resumed(Some(Enter(frames, lower, f, args, open)))
  {
    EnterGood(frames, lower, f, args, open);
  }

  lemma CallbackGood(frames: seq<Frame>, stack: seq<StackValue>, open: set<nat>, bottom: nat, callback: nat)
    requires Below(frames, stack, open, bottom)
    ensures Resumed(Some(Thread(frames + [CallbackFrame(bottom, callback)], stack, open)))
  {
    assert Pop(frames + [CallbackFrame(bottom, callback)]) == frames;
  }

  lemma BelowSame(frames: seq<Frame>, stack: seq<StackValue>, stack': seq<StackValue>, open: set<nat>, edge: nat)
    requires Below(frames, stack, open, edge) && edge <= |stack'| && stack'[..edge] == stack[..edge]
    ensures Below(frames, stack', open, edge)
  {
    WaitsSame(frames, stack, stack', edge);
  }

  lemma CallAtGood(t: Thread, index: nat, count: nat, f: Function)
    requires index + 1 + count <= |t.stack| && Below(t.frames, t.stack, t.open, index)
    ensures Resumed(Some(CallAt(t, index, count, f)))
  {
    hide Below, Resumed;
    match f {
      case Closure(_, proto) =>
        var above := if count > proto.fixedParams then Rotated(t.stack[index + 1..index + 1 + count], proto.fixedParams)
                     else t.stack[index + 1..];
        BelowSame(t.frames, t.stack, t.stack[..index], t.open, index);
        CalledGood(t.frames, t.stack[..index], f, above, index + 1 + Excess(count, proto.fixedParams), t.open);
      case Callback(c) =>
        var stack := Truncate(t.stack[..index] + t.stack[index + 1..], index + count);
        BelowSame(t.frames, t.stack, stack, t.open, index);
        CallbackGood(t.frames, stack, t.open, index, c);
    }
  }

  lemma CallsGood(t: Thread, func: nat, args: VarCount, results: VarCount, callee: Option<Function>)
    requires Good(t) && RunsLua(t) && Last(t.frames).pc > 0 && EndingOk(t, Calls(func, args, results, callee))
    ensures Resumed(CallFunction(t, func, args, results, callee))
  {
    hide Good, Below, Resumed, CallAt;
    var index, frames := Last(t.frames).base + func, Expecting(t, NormalReturn(results));
    if callee.None? {
      RaiseGood(t, frames, BadCall);
    } else {
      var count := if args.Some? then args.value else |t.stack| - index - 1;
      ExpectingBelow(t, NormalReturn(results), index);
      CallAtGood(t.(frames := frames), index, count, callee.value);
    }
  }

  lemma CallCopyGood(t: Thread, index: nat, count: nat, f: Function)
    requires index + 1 + count <= |t.stack| && Below(t.frames, t.stack, t.open, index + 1 + count)
    ensures Resumed(Some(CallCopy(t, index, count, f)))
  {
    hide Below, Resumed, Enter;
    var top := index + 1 + count;
    match f {
      case Closure(_, _) =>
        var lower := Resize(t.stack, top);
        BelowSame(t.frames, t.stack, lower, t.open, top);
        EnteredGood(t.frames, lower, f, lower[index + 1..top], t.open);
      case Callback(c) =>
        var stack := t.stack[..top] + t.stack[index + 1..top];
        BelowSame(t.frames, t.stack, stack, t.open, top);
        CallbackGood(t.frames, stack, t.open, top, c);
    }
  }

  lemma CallsKeepGood(t: Thread, func: nat, given: nat, results: VarCount, callee: Option<Function>)
    requires Good(t) && RunsLua(t) && Last(t.frames).pc > 0 && EndingOk(t, CallsKeep(func, given, results, callee))
    ensures Resumed(CallFunctionKeep(t, func, given, results, callee))
  {
    hide Below, Resumed, CallCopy, InRegisters, Waits;
    var index, frames := Last(t.frames).base + func, Expecting(t, NormalReturn(results));
    if callee.None? {
      RaiseGood(t, frames, BadCall);
    } else {
      ExpectingBelow(t, NormalReturn(results), index + 1 + given);
      CallCopyGood(t.(frames := frames), index, given, callee.value);
    }
  }

  lemma CallsMetaGood(t: Thread, values: seq<StackValue>, meta: MetaReturn, callee: Option<Function>)
    requires Good(t) && RunsLua(t) && Last(t.frames).pc > 0 && EndingOk(t, CallsMeta(values, meta, callee))
    ensures Resumed(CallMetaFunction(t, values, meta, callee))
  {
    var f, frames := Last(t.frames), Expecting(t, MetaMethod(meta));
    var top := f.base + f.stackSize;
    assert |t.stack| == top;
    OpenBelow(t.frames, t.stack, t.open, top);
    hide Good, Below, Waits, OpenOk, Resumed;
    ExpectingBelow(t, MetaMethod(meta), top);
    if callee.None? {
      RaiseGood(t, frames, BadCall);
    } else {
      match callee.value {
        case Closure(_, _) =>
          assert Resize(t.stack, top) == t.stack;
          EnteredGood(frames, t.stack, callee.value, values, t.open);
        case Callback(c) =>
          BelowSame(frames, t.stack, t.stack + values, t.open, top);
          CallbackGood(frames, t.stack + values, t.open, top, c);
      }
    }
  }

  lemma OpenBelow(frames: seq<Frame>, stack: seq<StackValue>, open: set<nat>, edge: nat)
    requires frames != [] && Last(frames).Lua? && Last(frames).bottom <= edge
    requires Waits(Pop(frames), stack, Last(frames).bottom) && OpenOk(frames, open, edge)
    ensures forall x :: x in open ==> x < edge
  {
    forall x | x in open && !(Last(frames).base <= x < edge) ensures x < edge {
      InRegistersBelow(Pop(frames), stack, x, Last(frames).bottom);
    }
  }

  /** What is below a frame that is about to go, once its upvalues are closed. */
  lemma ClosedBelow(t: Thread)
    requires Good(t) && RunsLua(t)
    ensures var bottom := Last(t.frames).bottom;
            Below(Pop(t.frames), t.stack, CloseUpvalues(t.open, bottom), bottom)
            && Below(Pop(t.frames), t.stack[..bottom], CloseUpvalues(t.open, bottom), bottom)
  {
    var bottom := Last(t.frames).bottom;
    CloseOk(t.frames, t.open, |t.stack|);
    WaitsSame(Pop(t.frames), t.stack, t.stack[..bottom], bottom);
  }

  lemma TailClosureGood(t: Thread, bottom: nat, f: Function, values: seq<StackValue>)
    requires f.Closure? && bottom <= |t.stack| && Below(t.frames, t.stack[..bottom], t.open, bottom)
    requires |values| < f.proto.fixedParams ==> bottom + 1 + f.proto.fixedParams <= |t.stack|
    ensures Resumed(Some(TailClosure(t, bottom, f, values)))
  {
    hide Below, Resumed, Enter;
    var lower, fixed := t.stack[..bottom], f.proto.fixedParams;
    if |values| > fixed {
      EnteredGood(t.frames, lower, f, values, t.open);
    } else {
      var params := bottom + 1 + fixed;
      var kept := if params <= |t.stack| then t.stack[params..] else [];
      CalledGood(t.frames, lower, f, values + Nils(fixed - |values|) + kept, bottom + 1, t.open);
    }
  }

  lemma TailCallsGood(t: Thread, func: nat, args: VarCount, callee: Option<Function>)
    requires Good(t) && RunsLua(t) && EndingOk(t, TailCalls(func, args, callee))
    ensures TailCallFunction(t, func, args, callee).None? <==> ShortTailCall(t, TailCalls(func, args, callee))
    ensures !ShortTailCall(t, TailCalls(func, args, callee)) ==> Resumed(TailCallFunction(t, func, args, callee))
  {
    hide Below, Resumed, TailClosure, InRegisters, Waits;
    var f := Last(t.frames);
    ClosedBelow(t);
    var index, rest, open := f.base + func, Pop(t.frames), CloseUpvalues(t.open, f.bottom);
    var count := if args.Some? then args.value else |t.stack| - index - 1;
    var values := t.stack[index + 1..index + 1 + count];
    if callee.None? {
      RaiseGood(t, t.frames, BadCall);
    } else if callee.value.Callback? {
      BelowSame(rest, t.stack, t.stack[..f.bottom] + values, open, f.bottom);
      CallbackGood(rest, t.stack[..f.bottom] + values, open, f.bottom, callee.value.id);
    } else if !ShortTailCall(t, TailCalls(func, args, callee)) {
      TailClosureGood(Thread(rest, t.stack, open), f.bottom, callee.value, values);
    }
  }

  lemma UpperGood(t: Thread, f: Frame, stack: seq<StackValue>, edge: nat, values: seq<StackValue>, results: VarCount)
    requires f.Lua? && f.bottom < f.base <= edge <= |stack| && edge <= f.base + f.stackSize && t.stack == stack[..edge]
    requires IsClosure(stack, f.bottom) && Waits(t.frames, stack, f.bottom) && OpenOk(t.frames + [f], t.open, edge)
    ensures Resumed(Some(FinishUpper(t, f, values, results)))
  {
    hide Waits, OpenOk;
    var u := FinishUpper(t, f, values, results);
    LuaGoesOn(t.frames, f, Last(u.frames), stack, u.stack, t.open, edge);
  }

  lemma ReturnValuesGood(t: Thread, bottom: nat, values: seq<StackValue>)
    requires Below(t.frames, t.stack, t.open, bottom)
    ensures Resumed(ReturnValues(t, bottom, values))
  {
    hide FinishMeta, FinishUpper;
    if t.frames == [] {
      NothingOpen(t.open, 0);
    } else if Last(t.frames).Sequence? {
      BelowSame(t.frames, t.stack, t.stack[..bottom] + values, t.open, bottom);
      SequenceGood(t.frames, t.stack[..bottom] + values, t.open, bottom);
    } else {
      assert t.frames == Pop(t.frames) + [Last(t.frames)];
      ReturnValuesToLua(t.(frames := Pop(t.frames)), Last(t.frames), bottom, values);
    }
  }

  lemma ReturnValuesToLua(t: Thread, f: Frame, bottom: nat, values: seq<StackValue>)
    requires f.Lua? && f.bottom < f.base <= bottom <= |t.stack| && bottom <= f.base + f.stackSize
    requires IsClosure(t.stack, f.bottom) && f.expected.Some? && MetaOk(f)
    requires Waits(t.frames, t.stack, f.bottom) && OpenOk(t.frames + [f], t.open, bottom)
    ensures Resumed(ReturnValues(t.(frames := t.frames + [f]), bottom, values))
  {
    hide Waits, OpenOk, FinishMeta, FinishUpper, Resumed;
    assert Pop(t.frames + [f]) == t.frames && Last(t.frames + [f]) == f;
    match f.expected.value {
      case NormalReturn(results) =>
        UpperGood(t.(stack := t.stack[..bottom]), f, t.stack, bottom, values, results);
      case MetaMethod(meta) =>
        var stack := Resize(t.stack, f.base + f.stackSize);
        assert stack[..f.bottom] == t.stack[..f.bottom];
        WaitsSame(t.frames, t.stack, stack, f.bottom);
        MetaGood(t.frames, f, stack, t.open, bottom, meta, if values != [] then values[0] else NilValue);
    }
  }

  lemma ReturnsGood(t: Thread, start: nat, count: VarCount)
    requires Good(t) && RunsLua(t) && EndingOk(t, Returns(start, count))
    ensures Resumed(ReturnUpper(t, start, count))
  {
    hide Below, Resumed, ReturnValues, InRegisters, Waits;
    ClosedBelow(t);
    var f := Last(t.frames);
    var first := f.base + start;
    var n := if count.Some? then count.value else |t.stack| - first;
    ReturnValuesGood(Thread(Pop(t.frames), t.stack, CloseUpvalues(t.open, f.bottom)), f.bottom, t.stack[first..first + n]);
  }

  /** A turn of a Lua frame keeps the invariant, and panics exactly when it ends with a tail call that
      passes too few arguments for the stack there is. */
  lemma RunLuaGood(t: Thread, turn: LuaTurn)
    requires Good(t) && RunsLua(t) && TurnOk(t, turn)
    ensures RunLua(t, turn).None? <==> ShortTailCall(Compute(t, turn), turn.ending)
    ensures RunLua(t, turn).Some? ==> Resumed(RunLua(t, turn))
  {
    ComputeGood(t, turn);
    var u := Compute(t, turn);
    hide Good;
    match turn.ending {
      case GoesOn =>
      case Raises(error) => RaiseGood(u, u.frames, error);
      case Calls(func, args, results, callee) => CallsGood(u, func, args, results, callee);
      case CallsKeep(func, given, results, callee) => CallsKeepGood(u, func, given, results, callee);
      case CallsMeta(values, meta, callee) => CallsMetaGood(u, values, meta, callee);
      case TailCalls(func, args, callee) => TailCallsGood(u, func, args, callee);
      case Returns(start, count) => ReturnsGood(u, start, count);
    }
  }
}
