/** What one round of the executor's loop does: with the reply of a callback or a sequence, with a Lua frame, with an
    error, and with a thread that has ended. */
module ExecutorRounds {
  import opened Values
  import opened Threads
  import opened ThreadLayout
  import opened ThreadResults
  import opened LuaTurns
  import opened Executors
  import opened ExecutorSteps
  import opened ExecutorSafety
  import ThreadInvariant

  // Replies.

  /** A callback or a sequence of the top thread acts, on its values from `bottom` on. */
  predicate Acts(n: Network, bottom: nat) {
    Formed(n) && Top(n).frames != [] && bottom <= |Top(n).stack|
    && (match Top(n).frames[|Top(n).frames| - 1]
        case CallbackFrame(b, _) => b == bottom
        case Sequence(b, _, _) => b == bottom
        case _ => false)
    && CallerKnown(Below(n), Top(n).stack)
  }

  /** The frames below. */
  function Below(n: Network): seq<Frame>
    requires Formed(n) && Top(n).frames != []
  {
    Top(n).frames[..|Top(n).frames| - 1]
  }

  /** With the sequence that waits for what comes of the reply. */
  function Base(n: Network, bottom: nat, after: Option<nat>): seq<Frame>
    requires Formed(n) && Top(n).frames != []
  {
    match after
    case None => Below(n)
    case Some(s) => Below(n) + [Sequence(bottom, s, None)]
  }

  /** All that has changed but for the effects is the top thread. */
  function Kept(n: Network, c: Choice, u: Thread): Option<Progress>
    requires Formed(n)
  {
    Some(Continues(Network((n.threads + c.effects)[n.stack[|n.stack| - 1] := u], n.stack)))
  }

  lemma ActsAnswers(n: Network, c: Choice, bottom: nat)
    requires Acts(n, bottom)
    ensures Iterate(n, c)
            == var r := Answer(n.(threads := n.threads + c.effects), Thread(Below(n), Top(n).stack[..bottom] + c.window, Top(n).open), bottom, c.reply);
               if r.Some? then Some(Continues(r.value)) else None
  {
  }

  /** The values in its window are the results for the frame below, or those of the thread. */
  lemma RoundReturns(n: Network, c: Choice, bottom: nat)
    requires Acts(n, bottom) && c.reply == Returning && Takes(Below(n), bottom)
    ensures exists u :: Iterate(n, c) == Kept(n, c, u) && Gets(u, Below(n), Top(n).stack[..bottom], Top(n).open, c.window)
  {
    ActsAnswers(n, c, bottom);
    hide Iterate, ReturnTo, Gets, Takes;
    var lower := Top(n).stack[..bottom];
    ReturnToGets(Below(n), lower, Top(n).open, c.window);
    var u := ReturnTo(Thread(Below(n), lower + c.window, Top(n).open), bottom).value;
    assert Iterate(n, c) == Kept(n, c, u);
  }

  lemma RoundContinues(n: Network, c: Choice, bottom: nat, s: nat)
    requires Acts(n, bottom) && c.reply == Continuing(s)
    ensures Iterate(n, c) == Kept(n, c, Thread(Below(n) + [Sequence(bottom, s, None)], Top(n).stack[..bottom] + c.window, Top(n).open))
  {
    ActsAnswers(n, c, bottom);
    hide Iterate;
  }

  /** Its values go, and the error stands above the frames below. */
  lemma RoundFails(n: Network, c: Choice, bottom: nat, error: Error)
    requires Acts(n, bottom) && c.reply == Failing(error)
    ensures Iterate(n, c) == Kept(n, c, Thread(Below(n) + [ErrorFrame(error)], Top(n).stack[..bottom], Top(n).open))
  {
    ActsAnswers(n, c, bottom);
    hide Iterate;
    assert (Top(n).stack[..bottom] + c.window)[..bottom] == Top(n).stack[..bottom];
  }

  /** The function is called with exactly the values in the window; the sequence waits at the same bottom. */
  lemma RoundCalls(n: Network, c: Choice, bottom: nat, f: Function, after: Option<nat>)
    requires Acts(n, bottom) && c.reply == Calling(f, after)
    ensures exists u :: Iterate(n, c) == Kept(n, c, u) && Called(u, Base(n, bottom, after), Top(n).stack[..bottom], Top(n).open, f, c.window)
  {
    var base, lower, open := Base(n, bottom, after), Top(n).stack[..bottom], Top(n).open;
    CallAnswer(n, c, bottom, f, after);
    PushCallCalls(base, lower, open, f, c.window);
    hide Iterate, Called, Acts, Base, PushCall;
    var u := PushCall(Thread(base, lower + c.window, open), |lower|, f).value;
    assert Iterate(n, c) == Kept(n, c, u);
  }

  lemma CallAnswer(n: Network, c: Choice, bottom: nat, f: Function, after: Option<nat>)
    requires Acts(n, bottom) && c.reply == Calling(f, after)
    ensures var r := PushCall(Thread(Base(n, bottom, after), Top(n).stack[..bottom] + c.window, Top(n).open), |Top(n).stack[..bottom]|, f);
            r.Some? ==> Iterate(n, c) == Kept(n, c, r.value)
  {
    ActsAnswers(n, c, bottom);
    hide Iterate;
    assert PushThen(Thread(Below(n), Top(n).stack[..bottom] + c.window, Top(n).open), bottom, after)
           == Thread(Base(n, bottom, after), Top(n).stack[..bottom] + c.window, Top(n).open);
  }

  /** The thread is suspended above the sequence once its values have been taken. */
  lemma RoundYields(n: Network, c: Choice, bottom: nat, after: Option<nat>)
    requires Acts(n, bottom) && c.reply == Yielding(None, after)
    ensures var u := Thread(Base(n, bottom, after) + [Yielded, ResultFrame(bottom)], Top(n).stack[..bottom] + c.window, Top(n).open);
            var v := Thread(Base(n, bottom, after) + [Yielded], Top(n).stack[..bottom], Top(n).open);
            Iterate(n, c) == Kept(n, c, u) && TakeResult(u) == Some((v, Values(c.window))) && Mode(v) == Suspended
  {
    ActsAnswers(n, c, bottom);
    hide Iterate;
    var lower, base := Top(n).stack[..bottom], Base(n, bottom, after);
    assert base + [Yielded, ResultFrame(bottom)] == base + [Yielded] + [ResultFrame(bottom)];
    assert Pop(base + [Yielded, ResultFrame(bottom)]) == base + [Yielded];
    assert (lower + c.window)[..bottom] == lower && (lower + c.window)[bottom..] == c.window;
  }

  /** Another thread gets the values: it is resumed with exactly these, or the top thread has the error. */
  lemma RoundYieldsTo(n: Network, c: Choice, bottom: nat, id: Id, after: Option<nat>)
    requires Acts(n, bottom) && c.reply == Yielding(Some(id), after)
    ensures var self, others := Thread(Base(n, bottom, after) + [Yielded], Top(n).stack[..bottom], Top(n).open), n.threads + c.effects;
            Iterate(n, c) == HandsOver(n, c, self, id, n.stack[..|n.stack| - 1])
  {
    ActsAnswers(n, c, bottom);
    hide Iterate;
    WindowDrained(n, c, bottom, after, Yielded);
  }

  /** The same for a thread that waits for the one it resumes; with nothing below it need not. */
  lemma RoundResumes(n: Network, c: Choice, bottom: nat, id: Id, after: Option<nat>)
    requires Acts(n, bottom) && c.reply == Resuming(id, after)
    ensures var self := Thread(Base(n, bottom, after) + [WaitThread], Top(n).stack[..bottom], Top(n).open);
            Iterate(n, c) == HandsOver(n, c, self, id, if Base(n, bottom, after) == [] then n.stack[..|n.stack| - 1] else n.stack)
  {
    ActsAnswers(n, c, bottom);
    hide Iterate;
    WindowDrained(n, c, bottom, after, WaitThread);
  }

  lemma WindowDrained(n: Network, c: Choice, bottom: nat, after: Option<nat>, f: Frame)
    requires Acts(n, bottom)
    ensures var t := Thread(Below(n), Top(n).stack[..bottom] + c.window, Top(n).open);
            t.stack[bottom..] == c.window
            && Push(PushThen(t.(stack := t.stack[..bottom]), bottom, after), f)
               == Thread(Base(n, bottom, after) + [f], Top(n).stack[..bottom], Top(n).open)
  {
    var lower := Top(n).stack[..bottom];
    assert (lower + c.window)[..bottom] == lower && (lower + c.window)[bottom..] == c.window;
  }

  /** The executor goes on with the thread `id`, above the threads `lower`; or not, if that cannot be resumed. */
  function HandsOver(n: Network, c: Choice, self: Thread, id: Id, lower: seq<Id>): Option<Progress>
    requires Formed(n)
  {
    var top, others := n.stack[|n.stack| - 1], n.threads + c.effects;
    if id == top then Kept(n, c, self.(frames := self.frames + [ErrorFrame(BadThreadMode(ThreadMode.Running))]))
    else if id !in others then None
    else if Mode(others[id]) != Suspended then Kept(n, c, self.(frames := self.frames + [ErrorFrame(BadThreadMode(Mode(others[id])))]))
    else match Resume(others[id], c.window)
      case None => None
      case Some(u) => Some(Continues(Network(others[top := self][id := u], lower + [id])))
  }

  /** The resumed thread starts with the values as its arguments, or gets them where it yielded. */
  lemma HandsOverValues(n: Network, c: Choice, self: Thread, id: Id, lower: seq<Id>, below: seq<Frame>, values: seq<StackValue>, open: set<nat>)
    requires Formed(n) && id in n.threads + c.effects && id != n.stack[|n.stack| - 1]
    requires (n.threads + c.effects)[id] == Thread(below + [Yielded], values, open) && Takes(below, |values|)
    ensures exists u :: Gets(u, below, values, open, c.window)
                        && HandsOver(n, c, self, id, lower)
                           == Some(Continues(Network((n.threads + c.effects)[n.stack[|n.stack| - 1] := self][id := u], lower + [id])))
  {
    YieldedGets(below, values, open, c.window);
    hide Gets, Takes, Resume;
  }

  lemma HandsOverArguments(n: Network, c: Choice, self: Thread, id: Id, lower: seq<Id>, f: Function)
    requires Formed(n) && id in n.threads + c.effects && id != n.stack[|n.stack| - 1]
    requires (n.threads + c.effects)[id] == Thread([StartFrame(f)], [], {})
    ensures exists u :: Called(u, [], [], {}, f, c.window)
                        && HandsOver(n, c, self, id, lower)
                           == Some(Continues(Network((n.threads + c.effects)[n.stack[|n.stack| - 1] := self][id := u], lower + [id])))
  {
    StartGets(f, c.window);
    hide Called, Resume;
  }

  // Lua frames.

  lemma RoundRunsLua(n: Network, c: Choice, u: Thread)
    requires Formed(n) && RunsLua(Top(n)) && RunLua(Top(n), c.turn) == Some(u)
    ensures Iterate(n, c) == Kept(n, c, u)
  {
    hide RunLua;
  }

  /** The frame as its instructions leave it. */
  function Computed(t: Thread, turn: LuaTurn): Frame
    requires RunsLua(t)
  {
    t.frames[|t.frames| - 1].(isVariable := turn.isVariable, pc := turn.pc)
  }

  /** A turn that just ends, and one that fails. */
  lemma TurnEnds(t: Thread, turn: LuaTurn)
    requires RunsLua(t)
    ensures var rest, f := t.frames[..|t.frames| - 1], Computed(t, turn);
            match turn.ending
            case GoesOn => RunLua(t, turn) == Some(Thread(rest + [f], turn.stack, turn.open))
            case Raises(error) => RunLua(t, turn) == Some(Thread(rest + [f, ErrorFrame(error)], turn.stack, turn.open))
            case _ => true
  {
    TwoFrames(t.frames[..|t.frames| - 1], Computed(t, turn), if turn.ending.Raises? then ErrorFrame(turn.ending.error) else Yielded);
  }

  /** A turn that calls a closure: it receives the values behind the function in the registers. */
  lemma TurnCalls(t: Thread, turn: LuaTurn, f: Function)
    requires RunsLua(t) && f.Closure?
    requires match turn.ending
             case Calls(func, args, _, callee) =>
               callee == Some(f) && Computed(t, turn).base + func < |turn.stack|
               && (args.Some? ==> Computed(t, turn).base + func + 1 + args.value <= |turn.stack|)
             case CallsKeep(func, given, _, callee) => callee == Some(f) && Computed(t, turn).base + func + 1 + given <= |turn.stack|
             case CallsMeta(_, _, callee) => callee == Some(f) && |turn.stack| == Computed(t, turn).base + Computed(t, turn).stackSize
             case _ => false
    ensures RunLua(t, turn).Some?
    ensures var u, rest, g := RunLua(t, turn).value, t.frames[..|t.frames| - 1], Computed(t, turn);
            match turn.ending
            case Calls(func, args, results, _) =>
              var index := g.base + func;
              var count := if args.Some? then args.value else |turn.stack| - index - 1;
              ReceivesParameters(u, turn.stack[..index], f, turn.stack[index + 1..index + 1 + count], Min(count, f.proto.fixedParams))
              && u.frames[..|u.frames| - 1] == rest + [g.(expected := Some(NormalReturn(results)))]
            case CallsKeep(func, given, results, _) =>
              var index := g.base + func;
              Receives(u, turn.stack[..index + 1 + given], f, turn.stack[index + 1..index + 1 + given])
              && u.frames[..|u.frames| - 1] == rest + [g.(expected := Some(NormalReturn(results)))]
            case CallsMeta(values, meta, _) =>
              Receives(u, turn.stack, f, values) && u.frames[..|u.frames| - 1] == rest + [g.(expected := Some(MetaMethod(meta)))]
  {
    hide ReceivesParameters, Receives, CallFunction, CallFunctionKeep, CallMetaFunction;
    var v := Compute(t, turn);
    assert Pop(v.frames) == t.frames[..|t.frames| - 1] && Last(v.frames) == Computed(t, turn);
    match turn.ending {
      case Calls(func, args, results, _) => CallFunctionLayout(v, func, args, results, f);
      case CallsKeep(func, given, results, _) => CallFunctionKeepLayout(v, func, given, results, f);
      case CallsMeta(values, meta, _) => CallMetaFunctionLayout(v, values, meta, f);
    }
  }

  /** A turn that calls in its own place. */
  lemma TurnTailCalls(t: Thread, turn: LuaTurn, f: Function)
    requires RunsLua(t) && f.Closure? && turn.ending.TailCalls? && turn.ending.callee == Some(f)
    requires var index := Computed(t, turn).base + turn.ending.func;
             Computed(t, turn).bottom <= index < |turn.stack| && (turn.ending.args.Some? ==> index + 1 + turn.ending.args.value <= |turn.stack|)
    ensures RunLua(t, turn).Some? ==>
              var u, index, bottom := RunLua(t, turn).value, Computed(t, turn).base + turn.ending.func, Computed(t, turn).bottom;
              var count := if turn.ending.args.Some? then turn.ending.args.value else |turn.stack| - index - 1;
              ReceivesParameters(u, turn.stack[..bottom], f, turn.stack[index + 1..index + 1 + count], f.proto.fixedParams)
              && u.frames[..|u.frames| - 1] == t.frames[..|t.frames| - 1]
  {
    hide ReceivesParameters, TailCallFunction;
    var v := Compute(t, turn);
    assert Pop(v.frames) == t.frames[..|t.frames| - 1] && Last(v.frames) == Computed(t, turn);
    TailCallLayout(v, turn.ending.func, turn.ending.args, f);
  }

  lemma ReturnTurn(t: Thread, turn: LuaTurn, start: nat, count: VarCount)
    requires RunsLua(t) && turn.ending == Returns(start, count)
    ensures var v := Thread(t.frames[..|t.frames| - 1] + [Computed(t, turn)], turn.stack, turn.open);
            RunLua(t, turn) == ReturnUpper(v, start, count) && RunsLua(v) && Last(v.frames) == Computed(t, turn)
            && Pop(v.frames) == v.frames[..|v.frames| - 1] == t.frames[..|t.frames| - 1]
  {
    hide ReturnUpper;
  }

  /** A turn that returns: the registers go to the frames below. */
  lemma TurnReturns(t: Thread, turn: LuaTurn, start: nat, count: VarCount)
    requires RunsLua(t) && turn.ending == Returns(start, count)
    requires Computed(t, turn).bottom <= Computed(t, turn).base + start <= |turn.stack|
    requires count.Some? ==> Computed(t, turn).base + start + count.value <= |turn.stack|
    requires var rest, bottom := t.frames[..|t.frames| - 1], Computed(t, turn).bottom;
             && Takes(rest, bottom) && (rest == [] ==> bottom == 0)
             && (rest != [] && Last(rest).Lua? && Last(rest).expected.value.MetaMethod? ==> bottom == Last(rest).base + Last(rest).stackSize)
    ensures var bottom, first := Computed(t, turn).bottom, Computed(t, turn).base + start;
            var values := if count.Some? then turn.stack[first..first + count.value] else turn.stack[first..];
            RunLua(t, turn).Some?
            && Gets(RunLua(t, turn).value, t.frames[..|t.frames| - 1], turn.stack[..bottom], (set x | x in turn.open && x < bottom), values)
  {
    hide Gets, ReturnUpper, Takes, RunLua, Compute;
    ReturnTurn(t, turn, start, count);
    hide Computed;
    ReturnUpperGets(Thread(t.frames[..|t.frames| - 1] + [Computed(t, turn)], turn.stack, turn.open), start, count);
  }

  // Errors.

  /** An error takes a Lua frame with its values and upvalues with it, stays pending in a sequence, and replaces any other
      frame. */
  function ErrorAbove(rest: seq<Frame>, f: Frame, stack: seq<StackValue>, open: set<nat>, error: Error): Option<Thread> {
    match f
    case Lua(bottom, _, _, _, _, _) =>
      Some(Thread(rest + [ErrorFrame(error)], if bottom <= |stack| then stack[..bottom] else stack, set x | x in open && x < bottom))
    case Sequence(bottom, s, pending) =>
      if pending.Some? then None else Some(Thread(rest + [Sequence(bottom, s, Some(error))], stack, open))
    case _ => Some(Thread(rest + [ErrorFrame(error)], stack, open))
  }

  lemma UnwindOne(rest: seq<Frame>, f: Frame, stack: seq<StackValue>, open: set<nat>, error: Error)
    ensures Unwind(Thread(rest + [f, ErrorFrame(error)], stack, open)) == ErrorAbove(rest, f, stack, open, error)
  {
    var frames := rest + [f, ErrorFrame(error)];
    assert Pop(frames) == rest + [f] && Pop(rest + [f]) == rest;
    assert stack[..|stack|] == stack;
  }

  lemma RoundUnwinds(n: Network, c: Choice, rest: seq<Frame>, f: Frame, stack: seq<StackValue>, open: set<nat>, error: Error)
    requires Formed(n) && Top(n) == Thread(rest + [f, ErrorFrame(error)], stack, open)
    ensures var r := ErrorAbove(rest, f, stack, open, error);
            Iterate(n, c) == if r.Some? then Some(Continues(Network(n.threads[n.stack[|n.stack| - 1] := r.value], n.stack))) else None
  {
    UnwindOne(rest, f, stack, open, error);
    hide Unwind;
  }

  /** Some rounds of unwinding. */
  function Unwound(t: Thread, rounds: nat): Option<Thread>
    decreases rounds
  {
    if rounds == 0 then Some(t)
    else if t.frames == [] || !Last(t.frames).ErrorFrame? then None
    else match Unwind(t)
      case None => None
      case Some(u) => Unwound(u, rounds - 1)
  }

  /** The least of a number and the bottoms of Lua frames. */
  function Lowest(luas: seq<Frame>, n: nat): (r: nat)
    requires forall i :: 0 <= i < |luas| ==> luas[i].Lua?
    ensures r <= n && forall i :: 0 <= i < |luas| ==> r <= luas[i].bottom
    decreases |luas|
  {
    if luas == [] then n else Lowest(luas[..|luas| - 1], Min(luas[|luas| - 1].bottom, n))
  }

  /** An error that is raised in Lua functions above a sequence reaches it as it is, and takes nothing below them away. */
  lemma {:induction false} ErrorReachesSequence(base: seq<Frame>, bottom: nat, s: nat, luas: seq<Frame>, stack: seq<StackValue>, open: set<nat>,
                                                error: Error)
    requires forall i :: 0 <= i < |luas| ==> luas[i].Lua?
    ensures var r := Unwound(Thread(base + [Sequence(bottom, s, None)] + luas + [ErrorFrame(error)], stack, open), |luas| + 1);
            r.Some? && r.value.frames == base + [Sequence(bottom, s, Some(error))]
            && r.value.stack == stack[..Lowest(luas, |stack|)] && r.value.open <= open
    decreases |luas|
  {
    if luas == [] {
      SequenceCatches(base, bottom, s, luas, stack, open, error);
    } else {
      hide Unwound, Lowest;
      var lower, f := luas[..|luas| - 1], luas[|luas| - 1];
      assert luas == lower + [f] && Lowest(luas, |stack|) == Lowest(lower, Min(f.bottom, |stack|)) by {
        LowestLess(luas, |stack|);
      }
      var u := OneLess(base + [Sequence(bottom, s, None)], lower, f, stack, open, error);
      ErrorReachesSequence(base, bottom, s, lower, u.stack, u.open, error);
      var n := Lowest(lower, |u.stack|);
      Cut(stack, |u.stack|, n);
    }
  }

  lemma Cut(stack: seq<StackValue>, m: nat, n: nat)
    requires n <= m <= |stack|
    ensures stack[..m][..n] == stack[..n]
  {
  }

  lemma LowestLess(luas: seq<Frame>, n: nat)
    requires luas != [] && forall i :: 0 <= i < |luas| ==> luas[i].Lua?
    ensures Lowest(luas, n) == Lowest(luas[..|luas| - 1], Min(luas[|luas| - 1].bottom, n))
  {
  }

  lemma SequenceCatches(base: seq<Frame>, bottom: nat, s: nat, none: seq<Frame>, stack: seq<StackValue>, open: set<nat>, error: Error)
    requires none == []
    ensures Unwound(Thread(base + [Sequence(bottom, s, None)] + none + [ErrorFrame(error)], stack, open), 1)
            == Some(Thread(base + [Sequence(bottom, s, Some(error))], stack, open))
    ensures stack[..|stack|] == stack
  {
    assert base + [Sequence(bottom, s, None)] + none + [ErrorFrame(error)] == base + [Sequence(bottom, s, None), ErrorFrame(error)];
    UnwindOne(base, Sequence(bottom, s, None), stack, open, error);
    hide Unwind;
    assert Unwound(Thread(base + [Sequence(bottom, s, Some(error))], stack, open), 0) == Some(Thread(base + [Sequence(bottom, s, Some(error))], stack, open));
  }

  lemma OneLess(base: seq<Frame>, lower: seq<Frame>, f: Frame, stack: seq<StackValue>, open: set<nat>, error: Error) returns (u: Thread)
    requires f.Lua?
    ensures u.frames == base + lower + [ErrorFrame(error)] && u.open <= open
    ensures u.stack == stack[..Min(f.bottom, |stack|)]
    ensures Unwound(Thread(base + (lower + [f]) + [ErrorFrame(error)], stack, open), |lower| + 2) == Unwound(u, |lower| + 1)
  {
    var rest := base + lower;
    assert base + (lower + [f]) + [ErrorFrame(error)] == rest + [f, ErrorFrame(error)];
    assert stack[..|stack|] == stack;
    UnwindOne(rest, f, stack, open, error);
    u := ErrorAbove(rest, f, stack, open, error).value;
    hide Unwind;
  }

  /** As many rounds of the executor. */
  lemma {:induction false} PlayUnwinds(n: Network, cs: seq<Choice>)
    requires Formed(n) && Unwound(Top(n), |cs|).Some?
    ensures Play(n, cs) == Some(Network(n.threads[n.stack[|n.stack| - 1] := Unwound(Top(n), |cs|).value], n.stack))
    decreases |cs|
  {
    hide Unwound, Play, Unwind, Mode;
    if cs == [] {
      NoRounds(n, cs);
    } else {
      var m := OneRound(n, cs);
      PlayUnwinds(m, cs[1..]);
      PutTwice(n, Top(m), Unwound(Top(m), |cs[1..]|).value);
    }
  }

  lemma NoRounds(n: Network, cs: seq<Choice>)
    requires Formed(n) && cs == []
    ensures Unwound(Top(n), |cs|) == Some(Top(n)) && Play(n, cs) == Some(n) && n.threads[n.stack[|n.stack| - 1] := Top(n)] == n.threads
  {
  }

  lemma PutTwice(n: Network, u: Thread, v: Thread)
    requires Formed(n)
    ensures n.threads[n.stack[|n.stack| - 1] := u][n.stack[|n.stack| - 1] := v] == n.threads[n.stack[|n.stack| - 1] := v]
  {
  }

  lemma OneRound(n: Network, cs: seq<Choice>) returns (m: Network)
    requires Formed(n) && cs != [] && Unwound(Top(n), |cs|).Some?
    ensures Formed(m) && m == Network(n.threads[n.stack[|n.stack| - 1] := Top(m)], n.stack)
    ensures Play(n, cs) == Play(m, cs[1..]) && Unwound(Top(n), |cs|) == Unwound(Top(m), |cs[1..]|)
  {
    hide Iterate, Unwind, Unwound, Mode, Play;
    var u := StepsUnwound(Top(n), |cs|);
    m := Network(n.threads[n.stack[|n.stack| - 1] := u], n.stack);
    UnwindRound(n, cs[0]);
    PlayRound(n, cs, m);
  }

  lemma StepsUnwound(t: Thread, rounds: nat) returns (u: Thread)
    requires rounds > 0 && Unwound(t, rounds).Some?
    ensures t.frames != [] && Last(t.frames).ErrorFrame? && Unwind(t) == Some(u) && Unwound(t, rounds) == Unwound(u, rounds - 1)
  {
    hide Unwind;
    u := Unwind(t).value;
  }

  lemma UnwindRound(n: Network, c: Choice)
    requires Formed(n) && Top(n).frames != [] && Last(Top(n).frames).ErrorFrame? && Unwind(Top(n)).Some?
    ensures Iterate(n, c) == Some(Continues(Network(n.threads[n.stack[|n.stack| - 1] := Unwind(Top(n)).value], n.stack)))
  {
    assert |Top(n).frames| > 1;
    hide Unwind;
  }

  lemma PlayRound(n: Network, cs: seq<Choice>, m: Network)
    requires Formed(n) && cs != [] && Formed(m) && Iterate(n, cs[0]) == Some(Continues(m))
    ensures Play(n, cs) == Play(m, cs[1..])
  {
    hide Iterate;
  }

  /** When the function that was called fails, whatever Lua functions it has called, the sequence that waits for it has exactly
      that error, and its turn. */
  lemma SequenceHasError(n: Network, cs: seq<Choice>, base: seq<Frame>, bottom: nat, s: nat, luas: seq<Frame>, error: Error)
    requires Formed(n) && Top(n).frames == base + [Sequence(bottom, s, None)] + luas + [ErrorFrame(error)]
    requires forall i :: 0 <= i < |luas| ==> luas[i].Lua?
    requires |cs| == |luas| + 1
    ensures exists u :: Play(n, cs) == Some(Network(n.threads[n.stack[|n.stack| - 1] := u], n.stack)) && Mode(u) == Normal
                        && u.frames == base + [Sequence(bottom, s, Some(error))] && u.stack == Top(n).stack[..Lowest(luas, |Top(n).stack|)]
  {
    ErrorReachesSequence(base, bottom, s, luas, Top(n).stack, Top(n).open, error);
    hide Unwound, Play;
    PlayUnwinds(n, cs);
    assert Mode(Unwound(Top(n), |cs|).value) == Normal;
  }

  /** When the function that was called returns, the sequence that waits for it has its turn with exactly the values returned. */
  lemma SequenceHasValues(n: Network, c: Choice, base: seq<Frame>, bottom: nat, s: nat, start: nat, count: VarCount)
    requires Formed(n) && RunsLua(Top(n)) && Top(n).frames[..|Top(n).frames| - 1] == base + [Sequence(bottom, s, None)]
    requires c.turn.ending == Returns(start, count)
    requires var f := Last(Top(n).frames); f.bottom == bottom <= f.base + start && f.base + start <= |c.turn.stack|
    requires count.Some? ==> Last(Top(n).frames).base + start + count.value <= |c.turn.stack|
    ensures var first := Last(Top(n).frames).base + start;
            var values := if count.Some? then c.turn.stack[first..first + count.value] else c.turn.stack[first..];
            var u := Thread(base + [Sequence(bottom, s, None)], c.turn.stack[..bottom] + values, set x | x in c.turn.open && x < bottom);
            Iterate(n, c) == Kept(n, c, u) && Mode(u) == Normal
  {
    TurnReturns(Top(n), c.turn, start, count);
    hide RunLua, Iterate;
    RoundRunsLua(n, c, RunLua(Top(n), c.turn).value);
  }

  // Threads that have ended.

  /** When the thread on top no longer runs, the one below gets its result, and takes its turn in the same round if it
      runs then. */
  lemma RoundSettles(n: Network, c: Choice, m: Network)
    requires Formed(n) && |n.stack| > 1 && Mode(Top(n)) != Normal && Settle(n) == Some(m)
    ensures Iterate(n, c) == if Mode(Top(m)) == Normal then Iterate(m, c) else Some(Continues(m))
  {
    hide Settle, Turn;
  }

  /** The waiting thread gets exactly the values the ended one has as its result, and the ended one is as that leaves it. */
  lemma SettleGets(n: Network, id: Id, rest: Thread, values: seq<StackValue>, frames: seq<Frame>, lower: seq<StackValue>, open: set<nat>)
    requires Formed(n) && |n.stack| > 1 && id == n.stack[|n.stack| - 2] != n.stack[|n.stack| - 1]
    requires Mode(Top(n)) == Result && TakeResult(Top(n)) == Some((rest, Values(values)))
    requires n.threads[id] == Thread(frames + [WaitThread], lower, open) && Takes(frames, |lower|)
    ensures exists u :: Gets(u, frames, lower, open, values)
                        && Settle(n) == Some(Network(n.threads[n.stack[|n.stack| - 1] := rest][id := u], n.stack[..|n.stack| - 1]))
  {
    ReturnToGets(frames, lower, open, values);
    hide Gets, Takes, ReturnTo, TakeResult;
    assert Pop(frames + [WaitThread]) == frames;
    var u := ReturnTo(Thread(frames, lower + values, open), |lower|).value;
    assert Settle(n) == Some(Network(n.threads[n.stack[|n.stack| - 1] := rest][id := u], n.stack[..|n.stack| - 1]));
  }

  /** So the outermost function's registers reach the thread that waits: in the round behind the one in which it returns. */
  lemma WaitingGetsRegisters(n: Network, c: Choice, id: Id, frames: seq<Frame>, lower: seq<StackValue>, open: set<nat>, start: nat, count: VarCount)
    requires Formed(n) && |n.stack| > 1 && id == n.stack[|n.stack| - 2] != n.stack[|n.stack| - 1]
    requires id !in c.effects && n.threads[id] == Thread(frames + [WaitThread], lower, open) && Takes(frames, |lower|)
    requires RunsLua(Top(n)) && |Top(n).frames| == 1 && Last(Top(n).frames).bottom == 0 && c.turn.ending == Returns(start, count)
    requires Last(Top(n).frames).base + start <= |c.turn.stack|
    requires count.Some? ==> Last(Top(n).frames).base + start + count.value <= |c.turn.stack|
    ensures var first := Last(Top(n).frames).base + start;
            var values := if count.Some? then c.turn.stack[first..first + count.value] else c.turn.stack[first..];
            exists m, u :: Iterate(n, c) == Some(Continues(m)) && Formed(m) && m.stack == n.stack && Mode(Top(m)) == Result
                           && Gets(u, frames, lower, open, values) && HandedOver(m, id, u)
  {
    hide RunLua, Iterate, HandedOver, Gets, Takes, TakeResult, Mode;
    var m := OutermostRound(n, c, start, count);
    var first := Last(Top(n).frames).base + start;
    var values := if count.Some? then c.turn.stack[first..first + count.value] else c.turn.stack[first..];
    var u := ResultReaches(m, id, values, frames, lower, open);
  }

  lemma OutermostRound(n: Network, c: Choice, start: nat, count: VarCount) returns (m: Network)
    requires Formed(n) && RunsLua(Top(n)) && |Top(n).frames| == 1 && Last(Top(n).frames).bottom == 0 && c.turn.ending == Returns(start, count)
    requires Last(Top(n).frames).base + start <= |c.turn.stack|
    requires count.Some? ==> Last(Top(n).frames).base + start + count.value <= |c.turn.stack|
    ensures var first := Last(Top(n).frames).base + start;
            var values := if count.Some? then c.turn.stack[first..first + count.value] else c.turn.stack[first..];
            Iterate(n, c) == Some(Continues(m)) && Formed(m) && m.stack == n.stack
            && Mode(Top(m)) == Result && TakeResult(Top(m)) == Some((Thread([], [], {}), Values(values)))
    ensures forall i | i in n.threads && i !in c.effects && i != n.stack[|n.stack| - 1] :: i in m.threads && m.threads[i] == n.threads[i]
  {
    hide RunLua, Iterate, TakeResult, Mode;
    var v := OutermostTurn(Top(n), c.turn, start, count);
    RoundRunsLua(n, c, v);
    m := Kept(n, c, v).value.next;
  }

  /** The ended thread is empty and off the stack, and the one that waited is `u`. */
  predicate HandedOver(n: Network, id: Id, u: Thread)
    requires Formed(n) && |n.stack| > 1
  {
    Settle(n) == Some(Network(n.threads[n.stack[|n.stack| - 1] := Thread([], [], {})][id := u], n.stack[..|n.stack| - 1]))
  }

  lemma ResultReaches(n: Network, id: Id, values: seq<StackValue>, frames: seq<Frame>, lower: seq<StackValue>, open: set<nat>) returns (u: Thread)
    requires Formed(n) && |n.stack| > 1 && id == n.stack[|n.stack| - 2] != n.stack[|n.stack| - 1]
    requires Mode(Top(n)) == Result && TakeResult(Top(n)) == Some((Thread([], [], {}), Values(values)))
    requires n.threads[id] == Thread(frames + [WaitThread], lower, open) && Takes(frames, |lower|)
    ensures Gets(u, frames, lower, open, values) && HandedOver(n, id, u)
  {
    hide Gets, Takes, TakeResult, Mode, Settle;
    SettleGets(n, id, Thread([], [], {}), values, frames, lower, open);
    u :| Gets(u, frames, lower, open, values)
         && Settle(n) == Some(Network(n.threads[n.stack[|n.stack| - 1] := Thread([], [], {})][id := u], n.stack[..|n.stack| - 1]));
  }

  lemma OutermostTurn(t: Thread, turn: LuaTurn, start: nat, count: VarCount) returns (v: Thread)
    requires RunsLua(t) && |t.frames| == 1 && Last(t.frames).bottom == 0 && turn.ending == Returns(start, count)
    requires Last(t.frames).base + start <= |turn.stack|
    requires count.Some? ==> Last(t.frames).base + start + count.value <= |turn.stack|
    ensures var first := Last(t.frames).base + start;
            RunLua(t, turn) == Some(v) && Mode(v) == Result
            && TakeResult(v) == Some((Thread([], [], {}), Values(if count.Some? then turn.stack[first..first + count.value] else turn.stack[first..])))
  {
    hide ReturnUpper, RunLua;
    ReturnTurn(t, turn, start, count);
    OutermostReturns(Thread(t.frames[..|t.frames| - 1] + [Computed(t, turn)], turn.stack, turn.open), start, count);
    v := RunLua(t, turn).value;
  }

  /** What the answer of `mode` means: whether there are rounds left, and otherwise what the one thread that is left has. */
  lemma ModeMeans(n: Network, c: Choice)
    requires Sound(n)
    ensures ModeOf(n) == Some(NormalMode) <==> Iterate(n, c) != Some(Finished)
    ensures ModeOf(n) == Some(ResultMode) <==> |n.stack| == 1 && TakeResult(Top(n)).Some?
    ensures ModeOf(n) == Some(EmptyMode) <==> |n.stack| == 1 && Top(n).frames == []
    ensures ModeOf(n) == Some(SuspendedMode) <==>
              |n.stack| == 1 && Top(n).frames != [] && (Last(Top(n).frames).StartFrame? || Last(Top(n).frames).Yielded?)
  {
    hide Settle, Turn;
    if Mode(Top(n)) == Result {
      ThreadInvariant.TakeResultGood(Top(n));
    }
  }
}
