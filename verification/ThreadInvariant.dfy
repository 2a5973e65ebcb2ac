/** What is true of every thread between two turns of the executor's loop, and why no operation on
    such a thread panics. */
module ThreadInvariant {
  import opened Values
  import opened Threads

  predicate IsClosure(stack: seq<StackValue>, bottom: nat) {
    bottom < |stack| && stack[bottom].FunctionValue? && stack[bottom].f.Closure?
  }

  predicate MetaOk(f: Frame)
    requires f.Lua?
  {
    match f.expected
    case Some(MetaMethod(ToRegister(r))) => r < f.stackSize
    case _ => true
  }

  /** The frames below an activation whose values start at `edge`. Each waits for the one above it: a
      sequence shares its bottom with it, a Lua frame is below it and knows what to do with results. */
  ghost predicate Waits(frames: seq<Frame>, stack: seq<StackValue>, edge: nat)
    decreases |frames|
  {
    if frames == [] then edge == 0
    else match Last(frames)
      case Lua(bottom, base, _, pc, stackSize, expected) =>
        bottom < base <= edge <= base + stackSize && IsClosure(stack, bottom) && pc > 0 && expected.Some? && MetaOk(Last(frames))
        && Waits(Pop(frames), stack, bottom)
      case Sequence(bottom, _, pending) =>
        bottom == edge && pending.None? && Waits(Pop(frames), stack, bottom)
      case _ => false
  }

  /** The slot `x`, below `edge`, is a register of some Lua frame. */
  ghost predicate InRegisters(frames: seq<Frame>, x: nat, edge: nat)
    decreases |frames|
  {
    frames != []
    && match Last(frames)
       case Lua(bottom, base, _, _, _, _) => base <= x < edge || InRegisters(Pop(frames), x, bottom)
       case Sequence(bottom, _, _) => InRegisters(Pop(frames), x, bottom)
       case _ => false
  }

  ghost predicate OpenOk(frames: seq<Frame>, open: set<nat>, edge: nat) {
    forall x :: x in open ==> InRegisters(frames, x, edge)
  }

  /** An error can unwind from here: popping frames ends with an empty stack. */
  ghost predicate Unwinds(frames: seq<Frame>, stack: seq<StackValue>) {
    var n := |stack|;
    if frames == [] then n == 0
    else match Last(frames)
      case Lua(bottom, base, _, _, _, _) => bottom < base <= n && Waits(Pop(frames), stack, bottom)
      case Sequence(bottom, _, pending) => bottom <= n && pending.None? && Waits(Pop(frames), stack, bottom)
      case Yielded => Waits(Pop(frames), stack, n)
      case WaitThread => Waits(Pop(frames), stack, n)
      case _ => false
  }

  /** The frames that hold open upvalues once an error is pushed on top. */
  function Holders(frames: seq<Frame>): seq<Frame> {
    if frames != [] && (Last(frames).Yielded? || Last(frames).WaitThread?) then Pop(frames) else frames
  }

  ghost predicate Good(t: Thread) {
    var n := |t.stack|;
    if t.frames == [] then n == 0 && t.open == {}
    else
      var rest := Pop(t.frames);
      match Last(t.frames)
      case Lua(bottom, base, isVariable, _, stackSize, _) =>
        bottom < base <= n && (!isVariable ==> n == base + stackSize)
        && IsClosure(t.stack, bottom) && Waits(rest, t.stack, bottom) && OpenOk(t.frames, t.open, n)
      case StartFrame(_) => rest == [] && n == 0 && t.open == {}
      case Yielded => Waits(rest, t.stack, n) && OpenOk(rest, t.open, n)
      case CallbackFrame(bottom, _) => bottom <= n && Waits(rest, t.stack, bottom) && OpenOk(rest, t.open, bottom)
      case Sequence(bottom, _, _) => bottom <= n && Waits(rest, t.stack, bottom) && OpenOk(rest, t.open, bottom)
      case WaitThread => Waits(rest, t.stack, n) && OpenOk(rest, t.open, n)
      case ResultFrame(bottom) =>
        bottom <= n
        && (if rest == [] then bottom == 0 && t.open == {}
            else Last(rest).Yielded? && Waits(Pop(rest), t.stack, bottom) && OpenOk(Pop(rest), t.open, bottom))
      case ErrorFrame(_) => Unwinds(rest, t.stack) && OpenOk(Holders(rest), t.open, n)
  }

  // The frames below an activation depend only on the stack below its edge.

  lemma {:induction false} WaitsSame(frames: seq<Frame>, stack: seq<StackValue>, stack': seq<StackValue>, edge: nat)
    requires Waits(frames, stack, edge) && edge <= |stack| && edge <= |stack'| && stack'[..edge] == stack[..edge]
    ensures Waits(frames, stack', edge)
    decreases |frames|
  {
    if frames != [] {
      var b := Last(frames).bottom;
      assert stack'[..b] == stack'[..edge][..b] && stack[..b] == stack[..edge][..b];
      if b < edge {
        assert stack'[b] == stack'[..edge][b] == stack[..edge][b];
      }
      WaitsSame(Pop(frames), stack, stack', b);
    }
  }

  lemma {:induction false} InRegistersBelow(frames: seq<Frame>, stack: seq<StackValue>, x: nat, edge: nat)
    requires Waits(frames, stack, edge) && InRegisters(frames, x, edge)
    ensures x < edge
    decreases |frames|
  {
    if !(Last(frames).Lua? && Last(frames).base <= x < edge) {
      InRegistersBelow(Pop(frames), stack, x, Last(frames).bottom);
    }
  }

  /** Writing through an open upvalue does not disturb waiting frames. */
  lemma {:induction false} WaitsWrite(frames: seq<Frame>, stack: seq<StackValue>, edge: nat, x: nat, v: StackValue)
    requires Waits(frames, stack, edge) && InRegisters(frames, x, edge) && x < |stack|
    ensures Waits(frames, stack[x := v], edge)
    decreases |frames|
  {
    var f := Last(frames);
    if f.Lua? && f.base <= x {
      if f.bottom <= |stack| {
        assert stack[x := v][..f.bottom] == stack[..f.bottom];
        WaitsSame(Pop(frames), stack, stack[x := v], f.bottom);
      }
    } else {
      InRegistersBelow(Pop(frames), stack, x, f.bottom);
      WaitsWrite(Pop(frames), stack, f.bottom, x, v);
    }
  }

  /** After closing at `bottom`, what stays open is in the registers of lower frames. */
  lemma CloseOk(frames: seq<Frame>, open: set<nat>, n: nat)
    requires frames != [] && Last(frames).Lua? && Last(frames).bottom < Last(frames).base && OpenOk(frames, open, n)
    ensures OpenOk(Pop(frames), CloseUpvalues(open, Last(frames).bottom), Last(frames).bottom)
  {
  }

  lemma NothingOpen(open: set<nat>, edge: nat)
    requires OpenOk([], open, edge)
    ensures open == {}
  {
    assert forall x :: !InRegisters([], x, edge);
  }

  lemma KeepsLower(stack: seq<StackValue>, stack': seq<StackValue>, bottom: nat, base: nat)
    requires bottom < base <= |stack| && base <= |stack'| && stack'[..base] == stack[..base]
    ensures stack'[..bottom] == stack[..bottom] && stack'[bottom] == stack[bottom]
  {
    assert stack'[..bottom] == stack'[..base][..bottom] && stack[..bottom] == stack[..base][..bottom];
    assert stack'[bottom] == stack'[..base][bottom] && stack[bottom] == stack[..base][bottom];
  }

  /** The top Lua frame may change in everything but its position. */
  lemma OpenAbove(frames: seq<Frame>, frames': seq<Frame>, open: set<nat>, edge: nat, edge': nat)
    requires frames != [] && frames' != [] && Last(frames).Lua? && Last(frames').Lua? && Pop(frames) == Pop(frames')
    requires Last(frames).bottom == Last(frames').bottom && Last(frames).base == Last(frames').base
    requires OpenOk(frames, open, edge) && (edge <= edge' || forall x :: x in open ==> x < edge')
    ensures OpenOk(frames', open, edge')
  {
  }

  // Operations keep the invariant, and do not panic.

  /** A Lua frame goes on above the frames that waited for it, after a change to itself and to the stack
      from its registers on. */
  lemma LuaGoesOn(rest: seq<Frame>, f: Frame, g: Frame, stack: seq<StackValue>, stack': seq<StackValue>, open: set<nat>, edge: nat)
    requires f.Lua? && g.Lua? && g.bottom == f.bottom < f.base == g.base <= edge <= |stack| && f.base <= |stack'|
    requires stack'[..f.base] == stack[..f.base]
    requires IsClosure(stack, f.bottom) && Waits(rest, stack, f.bottom) && OpenOk(rest + [f], open, edge)
    requires edge <= |stack'| || forall x :: x in open ==> x < |stack'|
    requires !g.isVariable ==> |stack'| == g.base + g.stackSize
    ensures Good(Thread(rest + [g], stack', open))
  {
    var fs, gs := rest + [f], rest + [g];
    assert Pop(fs) == rest && Pop(gs) == rest && Last(fs) == f && Last(gs) == g;
    KeepsLower(stack, stack', f.bottom, f.base);
    WaitsSame(rest, stack, stack', f.bottom);
    OpenAbove(fs, gs, open, edge, |stack'|);
  }

  ghost predicate Resumed(u: Option<Thread>) {
    u.Some? && Good(u.value) && Mode(u.value) != Waiting && u.value.frames != []
  }

  lemma MetaGood(rest: seq<Frame>, f: Frame, stack: seq<StackValue>, open: set<nat>, edge: nat, meta: MetaReturn, v: StackValue)
    requires f.Lua? && f.bottom < f.base <= edge <= |stack| == f.base + f.stackSize
    requires MetaOk(f.(expected := Some(MetaMethod(meta))))
    requires IsClosure(stack, f.bottom) && Waits(rest, stack, f.bottom) && OpenOk(rest + [f], open, edge)
    ensures Resumed(FinishMeta(Thread(rest, stack, open), f, meta, v))
  {
    var u := FinishMeta(Thread(rest, stack, open), f, meta, v).value;
    LuaGoesOn(rest, f, Last(u.frames), stack, u.stack, open, edge);
  }

  lemma NormalGood(rest: seq<Frame>, f: Frame, stack: seq<StackValue>, open: set<nat>, bottom: nat, count: VarCount)
    requires f.Lua? && f.bottom < f.base <= bottom <= |stack| && bottom <= f.base + f.stackSize
    requires IsClosure(stack, f.bottom) && Waits(rest, stack, f.bottom) && OpenOk(rest + [f], open, bottom)
    ensures Resumed(Some(FinishNormal(Thread(rest, stack, open), f, bottom, count)))
  {
    hide Waits, InRegisters, OpenOk;
    var u := FinishNormal(Thread(rest, stack, open), f, bottom, count);
    LuaGoesOn(rest, f, Last(u.frames), stack, u.stack, open, bottom);
  }

  lemma SequenceGood(frames: seq<Frame>, stack: seq<StackValue>, open: set<nat>, bottom: nat)
    requires bottom <= |stack| && Waits(frames, stack, bottom) && OpenOk(frames, open, bottom)
    requires frames != [] && Last(frames).Sequence?
    ensures Good(Thread(frames, stack, open))
  {
  }

  lemma ReturnToLua(rest: seq<Frame>, f: Frame, stack: seq<StackValue>, open: set<nat>, bottom: nat)
    requires f.Lua? && f.bottom < f.base <= bottom <= |stack| && bottom <= f.base + f.stackSize
    requires IsClosure(stack, f.bottom) && f.expected.Some? && MetaOk(f)
    requires Waits(rest, stack, f.bottom) && OpenOk(rest + [f], open, bottom)
    ensures Resumed(ReturnTo(Thread(rest + [f], stack, open), bottom))
  {
    hide Waits, OpenOk, Good, FinishNormal, FinishMeta, Mode;
    var frames := rest + [f];
    assert Last(frames) == f && Pop(frames) == rest;
    match f.expected.value {
      case NormalReturn(count) =>
        NormalGood(rest, f, stack, open, bottom, count);
      case MetaMethod(meta) =>
        var cut := Resize(Truncate(stack, bottom), f.base + f.stackSize);
        assert cut[..f.bottom] == stack[..f.bottom];
        WaitsSame(rest, stack, cut, f.bottom);
        MetaGood(rest, f, cut, open, bottom, meta, if bottom < |stack| then stack[bottom] else NilValue);
    }
  }

  lemma WaitingLua(frames: seq<Frame>, stack: seq<StackValue>, edge: nat)
    requires frames != [] && Last(frames).Lua? && Waits(frames, stack, edge)
    ensures var f := Last(frames);
            f.bottom < f.base <= edge <= f.base + f.stackSize && IsClosure(stack, f.bottom) && f.pc > 0
            && f.expected.Some? && MetaOk(f) && Waits(Pop(frames), stack, f.bottom)
  {
  }

  lemma WaitingKinds(frames: seq<Frame>, stack: seq<StackValue>, edge: nat)
    requires Waits(frames, stack, edge)
    ensures if frames == [] then edge == 0 else Last(frames).Lua? || Last(frames).Sequence?
  {
  }

  /** Results come back to waiting frames. */
  lemma ReturnToGood(frames: seq<Frame>, stack: seq<StackValue>, open: set<nat>, bottom: nat)
    requires bottom <= |stack| && Waits(frames, stack, bottom) && OpenOk(frames, open, bottom)
    ensures Resumed(ReturnTo(Thread(frames, stack, open), bottom))
  {
    hide Waits, OpenOk, FinishNormal, FinishMeta;
    WaitingKinds(frames, stack, bottom);
    if frames == [] {
      NothingOpen(open, bottom);
    } else if Last(frames).Lua? {
      WaitingLua(frames, stack, bottom);
      assert Pop(frames) + [Last(frames)] == frames;
      ReturnToLua(Pop(frames), Last(frames), stack, open, bottom);
    } else {
      ReturnToSequence(frames, stack, open, bottom);
    }
  }

  lemma ReturnToSequence(frames: seq<Frame>, stack: seq<StackValue>, open: set<nat>, bottom: nat)
    requires bottom <= |stack| && Waits(frames, stack, bottom) && OpenOk(frames, open, bottom)
    requires frames != [] && Last(frames).Sequence?
    ensures Resumed(ReturnTo(Thread(frames, stack, open), bottom))
  {
    SequenceGood(frames, stack, open, bottom);
  }

  /** An activation that starts at `edge` can be put above `frames`. */
  ghost predicate Below(frames: seq<Frame>, stack: seq<StackValue>, open: set<nat>, edge: nat) {
    edge <= |stack| && Waits(frames, stack, edge) && OpenOk(frames, open, edge)
  }

  lemma EnterGood(frames: seq<Frame>, lower: seq<StackValue>, f: Function, args: seq<StackValue>, open: set<nat>)
    requires f.Closure? && Below(frames, lower, open, |lower|)
    ensures Good(Enter(frames, lower, f, args, open))
  {
    var u := Enter(frames, lower, f, args, open);
    assert Pop(u.frames) == frames;
    assert u.stack[..|lower|] == lower[..|lower|];
    WaitsSame(frames, lower, u.stack, |lower|);
    PushedOpen(frames, Last(u.frames), open, |lower|, |u.stack|);
  }

  lemma PushedOpen(frames: seq<Frame>, f: Frame, open: set<nat>, bottom: nat, n: nat)
    requires OpenOk(frames, open, bottom) && (f.Lua? || f.Sequence?) && f.bottom == bottom
    ensures OpenOk(frames + [f], open, n)
  {
    assert Pop(frames + [f]) == frames;
  }

  lemma PushCallGood(frames: seq<Frame>, stack: seq<StackValue>, open: set<nat>, bottom: nat, f: Function)
    requires Below(frames, stack, open, bottom)
    ensures Resumed(PushCall(Thread(frames, stack, open), bottom, f))
  {
    hide InRegisters;
    var lower := stack[..bottom];
    match f {
      case Closure(_, _) =>
        WaitsSame(frames, stack, lower, bottom);
        EnterGood(frames, lower, f, stack[bottom..], open);
      case Callback(c) => assert Pop(frames + [CallbackFrame(bottom, c)]) == frames;
    }
  }

  /** A sequence can be put above waiting frames, and frames above it at the same bottom. */
  lemma SequenceBelow(frames: seq<Frame>, stack: seq<StackValue>, open: set<nat>, bottom: nat, sequence: nat)
    requires Below(frames, stack, open, bottom)
    ensures Below(frames + [Sequence(bottom, sequence, None)], stack, open, bottom)
  {
    PushedOpen(frames, Sequence(bottom, sequence, None), open, bottom, bottom);
    assert Pop(frames + [Sequence(bottom, sequence, None)]) == frames;
  }

  lemma ErrorGood(frames: seq<Frame>, stack: seq<StackValue>, open: set<nat>, error: Error)
    requires Below(frames, stack, open, |stack|)
    ensures Good(Thread(frames + [ErrorFrame(error)], stack, open))
  {
    hide InRegisters;
    assert Pop(frames + [ErrorFrame(error)]) == frames;
  }

  lemma YieldedGood(frames: seq<Frame>, stack: seq<StackValue>, open: set<nat>)
    requires Below(frames, stack, open, |stack|)
    ensures Good(Thread(frames + [Yielded], stack, open)) && Good(Thread(frames + [WaitThread], stack, open))
  {
    hide InRegisters;
    assert Pop(frames + [Yielded]) == frames && Pop(frames + [WaitThread]) == frames;
  }

  /** Resuming a suspended thread makes it ready to run, or hands it a result. */
  lemma ResumeGood(t: Thread, args: seq<StackValue>)
    requires Good(t) && Mode(t) == Suspended
    ensures Resumed(Resume(t, args))
  {
    hide InRegisters;
    var rest, stack := Pop(t.frames), t.stack + args;
    if Last(t.frames).Yielded? {
      WaitsSame(rest, t.stack, stack, |t.stack|);
      ReturnToGood(rest, stack, t.open, |t.stack|);
    } else {
      var f := Last(t.frames).entry;
      assert Below([], stack, {}, 0) by { assert OpenOk([], {}, 0); }
      PushCallGood([], stack, {}, 0, f);
    }
  }

  lemma ResumeErrGood(t: Thread, error: Error)
    requires Good(t) && Mode(t) == Suspended
    ensures Resumed(ResumeErr(t, error))
  {
    ErrorGood(Pop(t.frames), t.stack, t.open, error);
  }

  /** Taking a result leaves a thread that has ended, or one that can be resumed. */
  lemma TakeResultGood(t: Thread)
    requires Good(t) && Mode(t) == Result
    ensures TakeResult(t).Some?
    ensures var u := TakeResult(t).value.0;
            Good(u) && Mode(u) == if u.frames == [] then Stopped else Suspended
  {
    hide InRegisters;
    if Last(t.frames).ResultFrame? {
      var rest, bottom := Pop(t.frames), Last(t.frames).bottom;
      if rest != [] {
        WaitsSame(Pop(rest), t.stack, t.stack[..bottom], bottom);
      }
    } else {
      NothingOpen(t.open, 0);
    }
  }
}
