/** No panic of the executor can happen, in any run, but for the tail calls that `ShortTailCall`
    describes. */
module ExecutorSafety {
  import opened Values
  import opened Threads
  import opened ThreadInvariant
  import opened LuaTurns
  import opened ThreadLayout
  import opened Executors

  /** A thread that another one runs for: it waits, and has frames to go back to. */
  predicate WaitsForResult(t: Thread) {
    |t.frames| > 1 && Last(t.frames).WaitThread?
  }

  ghost predicate Distinct(ids: seq<Id>) {
    forall i, j :: 0 <= i < j < |ids| ==> ids[i] != ids[j]
  }

  ghost predicate AllGood(threads: map<Id, Thread>) {
    forall id :: id in threads ==> Good(threads[id])
  }

  ghost predicate LowerWait(n: Network)
    requires Formed(n)
  {
    forall i :: 0 <= i < |n.stack| - 1 ==> WaitsForResult(n.threads[n.stack[i]])
  }

  /** The invariant of all runs. */
  ghost predicate Sound(n: Network) {
    Formed(n) && Distinct(n.stack) && AllGood(n.threads) && LowerWait(n) && Mode(Top(n)) != Waiting
  }

  // What a turn may be.

  /** Only slots that open upvalues refer to are written. */
  ghost predicate WritesOpen(t: Thread, u: Thread) {
    u.frames == t.frames && u.open == t.open && |u.stack| == |t.stack|
    && forall x :: 0 <= x < |t.stack| && u.stack[x] != t.stack[x] ==> x in t.open
  }

  /** Running code may create threads and use those that the executor is not running; it reaches a thread
      that waits only through upvalues. */
  ghost predicate EffectsOk(n: Network, effects: map<Id, Thread>)
    requires Formed(n)
  {
    forall id :: id in effects ==>
      id != TopId(n) && (if id in n.stack then WritesOpen(n.threads[id], effects[id]) else Good(effects[id]))
  }

  /** A reply names threads that exist. */
  predicate ReplyOk(threads: map<Id, Thread>, reply: Reply) {
    match reply
    case Yielding(Some(id), _) => id in threads
    case Resuming(id, _) => id in threads
    case _ => true
  }

  ghost predicate FitsTurn(n: Network, c: Choice)
    requires Formed(n)
  {
    EffectsOk(n, c.effects) && ReplyOk(n.threads + c.effects, c.reply)
    && (RunsLua(Top(n)) ==> TurnOk(Top(n), c.turn))
  }

  /** The network on which the turn of this round is taken. */
  function Ready(n: Network): Option<Network>
    requires Formed(n)
  {
    if Mode(Top(n)) == Normal then Some(n) else if |n.stack| == 1 then None else Settle(n)
  }

  ghost predicate ChoiceOk(n: Network, c: Choice)
    requires Formed(n)
  {
    Ready(n).Some? && Formed(Ready(n).value) ==> FitsTurn(Ready(n).value, c)
  }

  predicate EndsShort(n: Network, c: Choice)
    requires Formed(n)
  {
    RunsLua(Top(n)) && ShortTailCall(Compute(Top(n), c.turn), c.turn.ending)
  }

  // Networks.

  lemma PutSound(n: Network, t: Thread)
    requires Formed(n) && Distinct(n.stack) && AllGood(n.threads) && LowerWait(n)
    requires Good(t) && Mode(t) != Waiting
    ensures Sound(Put(n, t)) && Top(Put(n, t)) == t && Put(n, t).stack == n.stack
  {
    hide Good, Mode;
    var m := Put(n, t);
    forall i | 0 <= i < |m.stack| - 1 ensures WaitsForResult(m.threads[m.stack[i]]) {
      assert m.stack[i] != TopId(n);
      assert WaitsForResult(n.threads[n.stack[i]]);
    }
  }

  /** The top thread hands over to a thread that is not on the stack, and leaves the stack if it has
      nothing to go back to. */
  lemma HandOverSound(n: Network, self: Thread, id: Id, u: Thread, lower: seq<Id>)
    requires Sound(n) && id !in n.stack && Good(self) && Good(u) && Mode(u) != Waiting
    requires lower == n.stack[..|n.stack| - 1] || (lower == n.stack && WaitsForResult(self))
    ensures Sound(Network(n.threads[TopId(n) := self][id := u], lower + [id]))
  {
    hide Good, Mode;
    var m := Network(n.threads[TopId(n) := self][id := u], lower + [id]);
    forall i | 0 <= i < |lower| ensures m.stack[i] != id && m.stack[i] in m.threads && WaitsForResult(m.threads[m.stack[i]]) {
      assert m.stack[i] == n.stack[i] && n.stack[i] in n.stack;
      if i < |n.stack| - 1 {
        assert n.stack[i] != TopId(n);
        assert WaitsForResult(n.threads[n.stack[i]]);
      }
    }
    assert m.stack[|lower|] == id;
    forall i, j | 0 <= i < j < |m.stack| ensures m.stack[i] != m.stack[j] {
      if j < |lower| {
        assert m.stack[i] == n.stack[i] && m.stack[j] == n.stack[j];
      }
    }
    assert TopId(m) == id && Top(m) == u;
  }

  lemma EffectsSound(n: Network, effects: map<Id, Thread>)
    requires Sound(n) && EffectsOk(n, effects)
    ensures var m := n.(threads := n.threads + effects);
            Sound(m) && Top(m) == Top(n)
  {
    var m := n.(threads := n.threads + effects);
    forall id | id in m.threads ensures Good(m.threads[id]) {
      hide Good, Mode;
      if id in effects && id in n.stack {
        var i :| 0 <= i < |n.stack| && n.stack[i] == id;
        assert WaitsForResult(n.threads[n.stack[i]]);
        WaitingWritten(n.threads[id], effects[id]);
      }
    }
    hide Good, Mode;
    forall i | 0 <= i < |m.stack| - 1 ensures WaitsForResult(m.threads[m.stack[i]]) {
      assert n.stack[i] in n.stack;
      assert WaitsForResult(n.threads[n.stack[i]]);
    }
  }

  lemma WaitingWritten(t: Thread, u: Thread)
    requires Good(t) && WaitsForResult(t) && WritesOpen(t, u)
    ensures Good(u)
  {
    WaitsWrites(Pop(t.frames), t.stack, u.stack, |t.stack|);
  }

  // Turns.

  lemma AfterBelow(t: Thread, bottom: nat, after: Option<nat>)
    requires Below(t.frames, t.stack, t.open, bottom)
    ensures var u := PushThen(t, bottom, after);
            Below(u.frames, t.stack, t.open, bottom) && u.stack == t.stack && u.open == t.open
  {
    hide Below;
    if after.Some? {
      SequenceBelow(t.frames, t.stack, t.open, bottom, after.value);
    }
  }

  lemma ReturnSound(n: Network, t: Thread, bottom: nat)
    requires Sound(n) && Below(t.frames, t.stack, t.open, bottom)
    ensures PutSome(n, ReturnTo(t, bottom)).Some? && Sound(PutSome(n, ReturnTo(t, bottom)).value)
  {
    ReturnToGood(t.frames, t.stack, t.open, bottom);
    hide Good, Mode, ReturnTo;
    PutSound(n, ReturnTo(t, bottom).value);
  }

  lemma ContinueSound(n: Network, t: Thread, bottom: nat, sequence: nat)
    requires Sound(n) && Below(t.frames, t.stack, t.open, bottom)
    ensures Sound(Put(n, Push(t, Sequence(bottom, sequence, None))))
  {
    SequenceBelow(t.frames, t.stack, t.open, bottom, sequence);
    SequenceGood(Push(t, Sequence(bottom, sequence, None)).frames, t.stack, t.open, bottom);
    hide Good;
    PutSound(n, Push(t, Sequence(bottom, sequence, None)));
  }

  lemma PushErrorSound(n: Network, t: Thread, error: Error)
    requires Formed(n) && Distinct(n.stack) && AllGood(n.threads) && LowerWait(n)
    requires Below(t.frames, t.stack, t.open, |t.stack|)
    ensures var m := Put(n, Push(t, ErrorFrame(error))); Sound(m) && Top(m) == Push(t, ErrorFrame(error))
  {
    ErrorGood(t.frames, t.stack, t.open, error);
    hide Good, Below;
    PutSound(n, Push(t, ErrorFrame(error)));
  }

  lemma CallSound(n: Network, t: Thread, bottom: nat, f: Function)
    requires Sound(n) && Below(t.frames, t.stack, t.open, bottom)
    ensures PutSome(n, PushCall(t, bottom, f)).Some? && Sound(PutSome(n, PushCall(t, bottom, f)).value)
  {
    PushCallGood(t.frames, t.stack, t.open, bottom, f);
    hide Good, Mode, PushCall;
    PutSound(n, PushCall(t, bottom, f).value);
  }

  lemma YieldSound(n: Network, t: Thread, bottom: nat)
    requires Sound(n) && Below(t.frames, t.stack, t.open, bottom)
    ensures Sound(Put(n, Push(Push(t, Yielded), ResultFrame(bottom))))
  {
    var u := Push(Push(t, Yielded), ResultFrame(bottom));
    assert Pop(u.frames) == Push(t, Yielded).frames && Pop(Pop(u.frames)) == t.frames;
    assert Good(u) by { hide InRegisters; }
    hide Good;
    PutSound(n, u);
  }

  /** Only the top of the stack and threads off it can be resumed. */
  lemma LowerWaits(n: Network, id: Id)
    requires Sound(n) && id in n.stack && id != TopId(n)
    ensures Mode(n.threads[id]) == Waiting
  {
    hide Good;
    var i :| 0 <= i < |n.stack| && n.stack[i] == id;
    assert WaitsForResult(n.threads[n.stack[i]]);
  }

  lemma TryResumeGood(n: Network, id: Id, args: seq<StackValue>)
    requires Sound(n) && id in n.threads
    ensures !TryResume(n, TopId(n), id, args).Panics?
    ensures TryResume(n, TopId(n), id, args).Restarted? ==>
              var u := TryResume(n, TopId(n), id, args).restarted;
              Good(u) && Mode(u) != Waiting && id !in n.stack
  {
    hide Good, Mode, Resume;
    if id != TopId(n) {
      if id in n.stack {
        LowerWaits(n, id);
      } else if Mode(n.threads[id]) == Suspended {
        ResumeGood(n.threads[id], args);
      }
    }
  }

  /** An error may be pushed on a thread that was about to be suspended. */
  lemma RefusedGood(t: Thread, f: Frame, error: Error)
    requires Below(t.frames, t.stack, t.open, |t.stack|) && (f.Yielded? || f.WaitThread?)
    ensures Good(Push(Push(t, f), ErrorFrame(error))) && Mode(Push(Push(t, f), ErrorFrame(error))) == Normal
  {
    hide InRegisters;
    var u := Push(Push(t, f), ErrorFrame(error));
    assert Pop(u.frames) == Push(t, f).frames && Pop(Pop(u.frames)) == t.frames;
  }

  lemma RefusedSound(n: Network, t: Thread, f: Frame, error: Error)
    requires Sound(n) && Below(t.frames, t.stack, t.open, |t.stack|) && (f.Yielded? || f.WaitThread?)
    ensures Sound(Put(n, Push(Push(t, f), ErrorFrame(error))))
  {
    hide Below, Good;
    RefusedGood(t, f, error);
    PutSound(n, Push(Push(t, f), ErrorFrame(error)));
  }

  lemma SuspendedGood(t: Thread, f: Frame)
    requires Below(t.frames, t.stack, t.open, |t.stack|) && (f.Yielded? || f.WaitThread?)
    ensures Good(Push(t, f)) && (f.WaitThread? && t.frames != [] ==> WaitsForResult(Push(t, f)))
  {
    hide Below, Good;
    YieldedGood(t.frames, t.stack, t.open);
  }

  lemma TransferSound(n: Network, t: Thread, f: Frame, id: Id, args: seq<StackValue>, stays: bool)
    requires Sound(n) && Below(t.frames, t.stack, t.open, |t.stack|) && (f.Yielded? || f.WaitThread?)
    requires id in n.threads && (stays ==> f.WaitThread? && t.frames != [])
    ensures Transfer(n, Push(t, f), id, args, stays).Some? && Sound(Transfer(n, Push(t, f), id, args, stays).value)
  {
    assert n.stack != [];
    hide Good, Mode, Below, TryResume, Sound, Push, WaitsForResult;
    TryResumeGood(n, id, args);
    match TryResume(n, TopId(n), id, args) {
      case Refused(error) => RefusedSound(n, t, f, error);
      case Restarted(u) =>
        SuspendedGood(t, f);
        HandOverSound(n, Push(t, f), id, u, if stays then n.stack else n.stack[..|n.stack| - 1]);
    }
  }

  /** The reply of an activation, whatever it is, keeps the invariant. */
  lemma AnswerSound(n: Network, t: Thread, bottom: nat, reply: Reply)
    requires Sound(n) && Below(t.frames, t.stack, t.open, bottom) && ReplyOk(n.threads, reply)
    ensures Answer(n, t, bottom, reply).Some? && Sound(Answer(n, t, bottom, reply).value)
  {
    var args, drained := t.stack[bottom..], t.(stack := t.stack[..bottom]);
    assert Below(drained.frames, drained.stack, drained.open, bottom) by {
      hide Waits, OpenOk;
      BelowSame(t.frames, t.stack, drained.stack, t.open, bottom);
    }
    hide Sound, Below, Transfer, ReturnTo, PushCall, PutSome;
    match reply {
      case Returning => ReturnSound(n, t, bottom);
      case Continuing(sequence) => ContinueSound(n, t, bottom, sequence);
      case Failing(error) => FailSound(n, drained, error);
      case Calling(f, after) =>
        AfterBelow(t, bottom, after);
        CallSound(n, PushThen(t, bottom, after), bottom, f);
      case Yielding(None, after) =>
        AfterBelow(t, bottom, after);
        YieldSound(n, PushThen(t, bottom, after), bottom);
      case Yielding(Some(id), after) =>
        AfterBelow(drained, bottom, after);
        TransferSound(n, PushThen(drained, bottom, after), Yielded, id, args, false);
      case Resuming(id, after) =>
        AfterBelow(drained, bottom, after);
        var u := PushThen(drained, bottom, after);
        TransferSound(n, u, WaitThread, id, args, u.frames != []);
    }
  }

  lemma FailSound(n: Network, t: Thread, error: Error)
    requires Sound(n) && Below(t.frames, t.stack, t.open, |t.stack|)
    ensures Sound(Put(n, Push(t, ErrorFrame(error))))
  {
    hide Below;
    PushErrorSound(n, t, error);
  }

  // An error unwinds, and ends in a sequence or with an empty thread.

  lemma ErrorParts(t: Thread)
    requires Good(t) && t.frames != [] && Last(t.frames).ErrorFrame?
    ensures Unwinds(Pop(t.frames), t.stack) && OpenOk(Holders(Pop(t.frames)), t.open, |t.stack|)
    ensures Pop(t.frames) != [] ==>
              var f := Last(Pop(t.frames));
              if f.Lua? || f.Sequence? then OpenOk(Pop(t.frames), t.open, |t.stack|) else f.Yielded? || f.WaitThread?
    ensures Pop(t.frames) != [] && Last(Pop(t.frames)).Sequence? ==> Last(Pop(t.frames)).pending.None?
  {
    hide Waits, OpenOk, IsClosure;
  }

  lemma UnwindGood(t: Thread)
    requires Good(t) && t.frames != [] && Last(t.frames).ErrorFrame? && |t.frames| > 1
    ensures Unwind(t).Some? && Good(Unwind(t).value) && Mode(Unwind(t).value) != Waiting
  {
    hide Good, Unwinds, OpenOk, CloseUpvalues, Holders, Mode, Truncate;
    ErrorParts(t);
    var error, rest := Last(t.frames).error, Pop(t.frames);
    if Last(rest).Lua? {
      UnwindLua(t, rest, error);
    } else if Last(rest).Sequence? {
      UnwindSequence(t, rest, error);
    } else {
      UnwindSuspended(t, rest, error);
    }
    UnwindMode(t);
  }

  lemma UnwindMode(t: Thread)
    requires t.frames != [] && Last(t.frames).ErrorFrame? && Unwind(t).Some?
    ensures Mode(Unwind(t).value) != Waiting
  {
    hide Truncate, CloseUpvalues;
  }

  lemma UnwindSuspended(t: Thread, rest: seq<Frame>, error: Error)
    requires rest != [] && (Last(rest).Yielded? || Last(rest).WaitThread?)
    requires Unwinds(rest, t.stack) && OpenOk(Holders(rest), t.open, |t.stack|)
    ensures Good(t.(frames := Pop(rest) + [ErrorFrame(error)]))
  {
    hide InRegisters;
    ErrorGood(Pop(rest), t.stack, t.open, error);
  }

  lemma UnwindLua(t: Thread, rest: seq<Frame>, error: Error)
    requires rest != [] && Last(rest).Lua? && Unwinds(rest, t.stack) && OpenOk(rest, t.open, |t.stack|)
    ensures var bottom := Last(rest).bottom;
            Good(Thread(Pop(rest) + [ErrorFrame(error)], Truncate(t.stack, bottom), CloseUpvalues(t.open, bottom)))
  {
    var bottom := Last(rest).bottom;
    CloseOk(rest, t.open, |t.stack|);
    WaitsSame(Pop(rest), t.stack, t.stack[..bottom], bottom);
    ErrorGood(Pop(rest), t.stack[..bottom], CloseUpvalues(t.open, bottom), error);
  }

  lemma UnwindSequence(t: Thread, rest: seq<Frame>, error: Error)
    requires rest != [] && Last(rest).Sequence? && Unwinds(rest, t.stack) && OpenOk(rest, t.open, |t.stack|)
    ensures var f := Last(rest).(pending := Some(error));
            Good(t.(frames := Pop(rest) + [f])) && Last(rest).pending.None?
  {
    var u := t.(frames := Pop(rest) + [Last(rest).(pending := Some(error))]);
    assert Pop(u.frames) == Pop(rest);
  }

  // Turns and rounds.

  lemma CallersKnown(frames: seq<Frame>, stack: seq<StackValue>, edge: nat)
    requires Waits(frames, stack, edge)
    ensures CallerKnown(frames, stack)
  {
  }

  lemma ActivationBelow(t: Thread, window: seq<StackValue>)
    requires Good(t) && t.frames != [] && (Last(t.frames).CallbackFrame? || Last(t.frames).Sequence?)
    ensures var bottom := Last(t.frames).bottom;
            bottom <= |t.stack| && CallerKnown(Pop(t.frames), t.stack)
            && Below(Pop(t.frames), t.stack[..bottom] + window, t.open, bottom)
  {
    var bottom, rest := Last(t.frames).bottom, Pop(t.frames);
    CallersKnown(rest, t.stack, bottom);
    WaitsSame(rest, t.stack, t.stack[..bottom] + window, bottom);
  }

  /** A turn keeps the invariant, and panics only by a tail call that is too short for the stack. */
  lemma TurnSound(n: Network, c: Choice)
    requires Sound(n) && Mode(Top(n)) == Normal && FitsTurn(n, c)
    ensures Turn(n, c).None? <==> EndsShort(n, c)
    ensures Turn(n, c).Some? ==> Sound(Turn(n, c).value)
  {
    var t, m := Top(n), n.(threads := n.threads + c.effects);
    EffectsSound(n, c.effects);
    hide Good, Answer, RunLua, Unwind, Compute, ShortTailCall, Below, CallerKnown, TurnOk;
    match Last(t.frames) {
      case CallbackFrame(bottom, _) =>
        ActivationBelow(t, c.window);
        AnswerSound(m, Thread(Pop(t.frames), t.stack[..bottom] + c.window, t.open), bottom, c.reply);
      case Sequence(bottom, _, _) =>
        ActivationBelow(t, c.window);
        AnswerSound(m, Thread(Pop(t.frames), t.stack[..bottom] + c.window, t.open), bottom, c.reply);
      case Lua(_, _, _, _, _, _) =>
        RunLuaGood(t, c.turn);
        if RunLua(t, c.turn).Some? {
          PutSound(m, RunLua(t, c.turn).value);
        }
      case ErrorFrame(_) =>
        assert |t.frames| > 1;
        UnwindGood(t);
        PutSound(n, Unwind(t).value);
      case _ =>
    }
  }

  lemma WaitThreadBelow(t: Thread, values: seq<StackValue>)
    requires Good(t) && WaitsForResult(t)
    ensures Below(Pop(t.frames), t.stack + values, t.open, |t.stack|) && Below(Pop(t.frames), t.stack, t.open, |t.stack|)
  {
    WaitsSame(Pop(t.frames), t.stack, t.stack + values, |t.stack|);
  }

  /** What a thread with waiting frames gets keeps it running. */
  lemma ReturnToRuns(t: Thread, bottom: nat)
    requires t.frames != [] && ReturnTo(t, bottom).Some?
    ensures Mode(ReturnTo(t, bottom).value) == Normal
  {
  }

  /** A thread that has ended hands over to the one below it, which then runs. */
  lemma SettleSound(n: Network)
    requires Sound(n) && |n.stack| > 1 && Mode(Top(n)) != Normal
    ensures Settle(n).Some?
    ensures var m := Settle(n).value;
            Sound(m) && m.stack == n.stack[..|n.stack| - 1] && Mode(Top(m)) == Normal
  {
    var ended, m := Top(n), n.(stack := n.stack[..|n.stack| - 1]);
    assert WaitsForResult(n.threads[n.stack[|n.stack| - 2]]);
    LowerSound(n);
    var t := Top(m);
    WaitThreadBelow(t, []);
    var u := t.(frames := Pop(t.frames));
    hide Good, Below, TakeResult, ReturnTo;
    if Mode(ended) == Result {
      SettleResult(n, m, u);
    } else {
      PushErrorSound(m, u, BadThreadMode(Mode(ended)));
    }
  }

  lemma SettleResult(n: Network, m: Network, u: Thread)
    requires Sound(n) && |n.stack| > 1 && Mode(Top(n)) == Result && m == n.(stack := n.stack[..|n.stack| - 1])
    requires Formed(m) && Distinct(m.stack) && AllGood(m.threads) && LowerWait(m) && TopId(n) !in m.stack
    requires WaitsForResult(Top(m)) && u == Top(m).(frames := Pop(Top(m).frames))
    ensures Settle(n).Some?
    ensures var m' := Settle(n).value; Sound(m') && m'.stack == m.stack && Mode(Top(m')) == Normal
  {
    WaitThreadBelow(Top(m), []);
    hide Good, Below, TakeResult, ReturnTo;
    TakeResultGood(Top(n));
    var (rest, taken) := TakeResult(Top(n)).value;
    var k := m.(threads := m.threads[TopId(n) := rest]);
    match taken {
      case Values(values) =>
        WaitThreadBelow(Top(m), values);
        HandResult(k, u.(stack := u.stack + values), |u.stack|);
      case Failure(error) => PushErrorSound(k, u, error);
    }
  }

  /** The thread below gets exactly what the ended thread returned, yielded or failed with. */
  lemma SettleDelivers(n: Network)
    requires Sound(n) && |n.stack| > 1 && Mode(Top(n)) == Result
    ensures Settle(n).Some? && TakeResult(Top(n)).Some?
    ensures var t, m := n.threads[n.stack[|n.stack| - 2]], Settle(n).value;
            var (rest, taken) := TakeResult(Top(n)).value;
            var frames, u := Pop(t.frames), m.threads[n.stack[|n.stack| - 2]];
            m.threads[TopId(n)] == rest
            && match taken
               case Failure(error) => u == t.(frames := frames + [ErrorFrame(error)])
               case Values(values) =>
                 (Last(frames).Sequence? ==> u == t.(frames := frames, stack := t.stack + values))
                 && forall count :: Last(frames).Lua? && Last(frames).expected == Some(NormalReturn(count))
                                 && (count.Some? ==> |t.stack| + count.value <= Last(frames).base + Last(frames).stackSize)
                                 ==> Pop(u.frames) == Pop(frames) && Delivers(t, u, Last(frames), |t.stack|, values, count)
  {
    LowerSound(n);
    SettleSound(n);
    TakeResultGood(Top(n));
    var t := n.threads[n.stack[|n.stack| - 2]];
    var (rest, taken) := TakeResult(Top(n)).value;
    assert WaitsForResult(n.threads[n.stack[|n.stack| - 2]]);
    hide Good, Sound, TakeResult, Delivers, ReturnTo;
    if taken.Values? {
      var w := Thread(Pop(t.frames), t.stack + taken.values, t.open);
      assert Settle(n) == PutSome(n.(stack := n.stack[..|n.stack| - 1], threads := n.threads[TopId(n) := rest]), ReturnTo(w, |t.stack|));
      ResultDelivered(t, w, |t.stack|, taken.values);
    }
  }

  lemma ResultDelivered(t: Thread, w: Thread, bottom: nat, values: seq<StackValue>)
    requires w.frames != [] && bottom == |t.stack| && w.stack == t.stack + values && ReturnTo(w, bottom).Some?
    ensures var f, u := Last(w.frames), ReturnTo(w, bottom).value;
            (f.Sequence? ==> u == w)
            && forall count :: f.Lua? && f.expected == Some(NormalReturn(count))
                            && (count.Some? ==> bottom + count.value <= f.base + f.stackSize)
                            ==> Pop(u.frames) == Pop(w.frames) && Delivers(t, u, f, bottom, values, count)
  {
    var f, u := Last(w.frames), ReturnTo(w, bottom).value;
    assert w.stack[bottom..] == values && w.stack[..bottom] == t.stack[..bottom];
    if f.Lua? && f.expected.Some? && f.expected.value.NormalReturn? {
      var count := f.expected.value.count;
      if count.Some? ==> bottom + count.value <= f.base + f.stackSize {
        ReturnToDelivers(w, bottom, count);
        DeliversFrom(t, w, u, f, bottom, values, count);
      }
    }
  }

  lemma DeliversFrom(t: Thread, w: Thread, u: Thread, f: Frame, at: nat, values: seq<StackValue>, expected: VarCount)
    requires f.Lua? && Delivers(w, u, f, at, values, expected)
    requires at <= |t.stack| && w.stack[..at] == t.stack[..at]
    ensures Delivers(t, u, f, at, values, expected)
  {
  }

  lemma HandResult(n: Network, t: Thread, bottom: nat)
    requires Formed(n) && Distinct(n.stack) && AllGood(n.threads) && LowerWait(n)
    requires Below(t.frames, t.stack, t.open, bottom) && t.frames != []
    ensures PutSome(n, ReturnTo(t, bottom)).Some?
    ensures var m := PutSome(n, ReturnTo(t, bottom)).value;
            Sound(m) && m.stack == n.stack && Mode(Top(m)) == Normal
  {
    ReturnToGood(t.frames, t.stack, t.open, bottom);
    ReturnToRuns(t, bottom);
    hide Good, Mode, ReturnTo;
    PutSound(n, ReturnTo(t, bottom).value);
  }

  /** The stack without its top. */
  lemma LowerSound(n: Network)
    requires Sound(n) && |n.stack| > 1
    ensures var m := n.(stack := n.stack[..|n.stack| - 1]);
            Formed(m) && Distinct(m.stack) && AllGood(m.threads) && LowerWait(m) && TopId(n) !in m.stack
            && Top(m) == n.threads[n.stack[|n.stack| - 2]]
  {
    hide Good;
    var m := n.(stack := n.stack[..|n.stack| - 1]);
    forall i | 0 <= i < |m.stack| - 1 ensures WaitsForResult(m.threads[m.stack[i]]) {
      assert WaitsForResult(n.threads[n.stack[i]]);
    }
  }

  /** A round of the loop keeps the invariant. It says that there is nothing more to do exactly when one
      thread is left that is not in `Normal` mode, and panics only by a tail call that is too short. */
  lemma RoundSound(n: Network, c: Choice)
    requires Sound(n) && ChoiceOk(n, c)
    ensures Iterate(n, c).None? <==> Ready(n).Some? && EndsShort(Ready(n).value, c)
    ensures Iterate(n, c) == Some(Finished) <==> |n.stack| == 1 && Mode(Top(n)) != Normal
    ensures Iterate(n, c).Some? && Iterate(n, c).value.Continues? ==> Sound(Iterate(n, c).value.next)
  {
    hide Good, Distinct, AllGood, LowerWait, EndsShort, Turn, Settle, FitsTurn;
    if Mode(Top(n)) == Normal {
      TurnSound(n, c);
    } else if |n.stack| > 1 {
      SettleSound(n);
      TurnSound(Settle(n).value, c);
    }
  }

  /** A run: each round takes its choice. */
  ghost predicate Trace(states: seq<Network>, choices: seq<Choice>) {
    && |states| == |choices| + 1 && Formed(states[|choices|])
    && forall i :: 0 <= i < |choices| ==> Leads(states, choices, i)
  }

  ghost predicate Leads(states: seq<Network>, choices: seq<Choice>, i: nat)
    requires i < |choices| && i + 1 < |states|
  {
    Formed(states[i]) && ChoiceOk(states[i], choices[i]) && Iterate(states[i], choices[i]) == Some(Continues(states[i + 1]))
  }

  lemma TraceTail(states: seq<Network>, choices: seq<Choice>)
    requires Trace(states, choices) && choices != []
    ensures |states| == |choices| + 1 && states[1..][|choices[1..]|] == states[|choices|]
    ensures Formed(states[0]) && ChoiceOk(states[0], choices[0]) && Iterate(states[0], choices[0]) == Some(Continues(states[1]))
    ensures Trace(states[1..], choices[1..])
  {
    hide Formed, ChoiceOk, Iterate;
    assert Leads(states, choices, 0);
    forall i | 0 <= i < |choices[1..]| ensures Leads(states[1..], choices[1..], i) {
      assert Leads(states, choices, i + 1);
    }
    assert states[1..][|choices[1..]|] == states[|choices|];
  }

  /** The invariant holds in every reachable state, so that no round of any run panics but by a tail call
      that is too short for the stack. */
  lemma {:induction false} RunsAreSafe(states: seq<Network>, choices: seq<Choice>, c: Choice)
    requires Trace(states, choices) && Sound(states[0]) && ChoiceOk(states[|choices|], c)
    ensures var last := states[|choices|];
            && Sound(last)
            && (Iterate(last, c).None? <==> Ready(last).Some? && EndsShort(Ready(last).value, c))
            && (Iterate(last, c) == Some(Finished) <==> |last.stack| == 1 && Mode(Top(last)) != Normal)
    decreases |choices|
  {
    hide Sound, EndsShort, Iterate, ChoiceOk;
    if choices == [] {
      assert |states| == 1;
      RoundSound(states[0], c);
    } else {
      TraceTail(states, choices);
      RoundSound(states[0], choices[0]);
      RunsAreSafe(states[1..], choices[1..], c);
    }
  }

  // The interface between steps.

  /** An executor that runs one thread, as `Executor::run` makes it. */
  lemma RunIsSound(threads: map<Id, Thread>, id: Id)
    requires id in threads && AllGood(threads) && Mode(threads[id]) != Waiting
    ensures Sound(Network(threads, [id]))
  {
  }

  /** `Executor::mode` always answers, and `take_result`, `resume` and `resume_err` do in the modes they
      are for; the next state is one that a run can go on from. */
  lemma InterfaceSound(n: Network, args: seq<StackValue>, error: Error)
    requires Sound(n)
    ensures ModeOf(n).Some?
    ensures ModeOf(n) == Some(ResultMode) ==>
              TakeResult(Top(n)).Some? && Sound(Put(n, TakeResult(Top(n)).value.0))
    ensures ModeOf(n) == Some(SuspendedMode) ==>
              Resume(Top(n), args).Some? && Sound(Put(n, Resume(Top(n), args).value))
              && ResumeErr(Top(n), error).Some? && Sound(Put(n, ResumeErr(Top(n), error).value))
  {
    hide Good;
    if ModeOf(n) == Some(ResultMode) {
      TakeResultGood(Top(n));
      PutSound(n, TakeResult(Top(n)).value.0);
    } else if ModeOf(n) == Some(SuspendedMode) {
      ResumeGood(Top(n), args);
      PutSound(n, Resume(Top(n), args).value);
      ResumeErrGood(Top(n), error);
      PutSound(n, ResumeErr(Top(n), error).value);
    }
  }
}
