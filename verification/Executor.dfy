/** The scheduler of piccolo/src/thread/executor.rs: a stack of threads, the top one of which takes a turn
    in every round of the loop in `Executor::step`. What callbacks, sequences and Lua code do is an
    arbitrary choice. `None` is a panic. */
module Executors {
  import opened Values
  import opened Threads
  import opened LuaTurns
  import opened FuelSpec

  type Id = nat

  /** All threads there are, and the stack of those that the executor is running. */
  datatype Network = Network(threads: map<Id, Thread>, stack: seq<Id>)

  /** What a callback or a sequence returns (`CallbackReturn`, `SequencePoll`, or an error). */
  datatype Reply =
    | Returning
    | Continuing(sequence: nat)
    | Yielding(target: Option<Id>, after: Option<nat>)
    | Calling(f: Function, after: Option<nat>)
    | Resuming(thread: Id, after: Option<nat>)
    | Failing(error: Error)

  /** A turn: the values a callback leaves in its window and its reply, or the turn of a Lua frame; what
      happens to other threads meanwhile; and how the fuel counter is used. */
  datatype Choice = Choice(window: seq<StackValue>, reply: Reply, turn: LuaTurn, effects: map<Id, Thread>,
                           fuel: seq<FuelUse>)

  function TopId(n: Network): Id
    requires n.stack != []
  {
    n.stack[|n.stack| - 1]
  }

  predicate Formed(n: Network) {
    n.stack != [] && forall i :: 0 <= i < |n.stack| ==> n.stack[i] in n.threads
  }

  function Top(n: Network): Thread
    requires Formed(n)
  {
    n.threads[TopId(n)]
  }

  function Put(n: Network, t: Thread): Network
    requires n.stack != []
  {
    n.(threads := n.threads[TopId(n) := t])
  }

  function PutSome(n: Network, t: Option<Thread>): Option<Network>
    requires n.stack != []
  {
    if t.Some? then Some(Put(n, t.value)) else None
  }

  function Push(t: Thread, f: Frame): Thread {
    t.(frames := t.frames + [f])
  }

  function PushThen(t: Thread, bottom: nat, after: Option<nat>): Thread {
    if after.Some? then Push(t, Sequence(bottom, after.value, None)) else t
  }

  /** `Thread::resume` called while the thread `self` is borrowed. */
  datatype Resumption = Refused(error: Error) | Restarted(restarted: Thread) | Panics

  function TryResume(n: Network, self: Id, id: Id, args: seq<StackValue>): Resumption {
    if id == self then Refused(BadThreadMode(ThreadMode.Running))
    else if id !in n.threads then Panics
    else if Mode(n.threads[id]) != Suspended then Refused(BadThreadMode(Mode(n.threads[id])))
    else
      var u := Resume(n.threads[id], args);
      if u.Some? then Restarted(u.value) else Panics
  }

  /** The top thread, now `self`, resumes another one. If that works it may stay on the stack below it. */
  function Transfer(n: Network, self: Thread, id: Id, args: seq<StackValue>, stays: bool): Option<Network>
    requires n.stack != []
  {
    match TryResume(n, TopId(n), id, args)
    case Refused(error) => Some(Put(n, Push(self, ErrorFrame(error))))
    case Restarted(u) =>
      var lower := if stays then n.stack else n.stack[..|n.stack| - 1];
      Some(Network(n.threads[TopId(n) := self][id := u], lower + [id]))
    case Panics => None
  }

  /** `callback_ret`: the reply of an activation that was popped from the top thread, whose values are
      those of `t` from `bottom` on. */
  function Answer(n: Network, t: Thread, bottom: nat, reply: Reply): Option<Network>
    requires n.stack != [] && bottom <= |t.stack|
  {
    var args, drained := t.stack[bottom..], t.(stack := t.stack[..bottom]);
    match reply
    case Returning => PutSome(n, ReturnTo(t, bottom))
    case Continuing(sequence) => Some(Put(n, Push(t, Sequence(bottom, sequence, None))))
    case Failing(error) => Some(Put(n, Push(drained, ErrorFrame(error))))
    case Calling(f, after) => PutSome(n, PushCall(PushThen(t, bottom, after), bottom, f))
    case Yielding(None, after) => Some(Put(n, Push(Push(PushThen(t, bottom, after), Yielded), ResultFrame(bottom))))
    case Yielding(Some(id), after) => Transfer(n, Push(PushThen(drained, bottom, after), Yielded), id, args, false)
    case Resuming(id, after) =>
      var self := Push(PushThen(drained, bottom, after), WaitThread);
      Transfer(n, self, id, args, |self.frames| != 1)
  }

  /** What `execution` looks up for a callback: the function and the line of the caller. */
  predicate CallerKnown(frames: seq<Frame>, stack: seq<StackValue>) {
    frames != [] && Last(frames).Lua? ==>
      var f := Last(frames);
      f.pc > 0 && f.bottom < |stack| && stack[f.bottom].FunctionValue? && stack[f.bottom].f.Closure?
  }

  /** An error unwinds one frame. */
  function Unwind(t: Thread): Option<Thread>
    requires t.frames != [] && Last(t.frames).ErrorFrame?
  {
    var error, rest := Last(t.frames).error, Pop(t.frames);
    if rest == [] then None
    else match Last(rest)
      case Lua(bottom, _, _, _, _, _) =>
        Some(Thread(Pop(rest) + [ErrorFrame(error)], Truncate(t.stack, bottom), CloseUpvalues(t.open, bottom)))
      case Sequence(bottom, sequence, pending) =>
        if pending.Some? then None
        else Some(t.(frames := Pop(rest) + [Sequence(bottom, sequence, Some(error))]))
      case _ => Some(t.(frames := Pop(rest) + [ErrorFrame(error)]))
  }

  /** The turn of the top thread, in `Normal` mode. */
  function Turn(n: Network, c: Choice): Option<Network>
    requires Formed(n) && Top(n).frames != []
  {
    var t := Top(n);
    var rest, m := Pop(t.frames), n.(threads := n.threads + c.effects);
    match Last(t.frames)
    case CallbackFrame(bottom, _) =>
      if !CallerKnown(rest, t.stack) || bottom > |t.stack| then None
      else Answer(m, Thread(rest, t.stack[..bottom] + c.window, t.open), bottom, c.reply)
    case Sequence(bottom, _, _) =>
      if !CallerKnown(rest, t.stack) || bottom > |t.stack| then None
      else Answer(m, Thread(rest, t.stack[..bottom] + c.window, t.open), bottom, c.reply)
    case Lua(_, _, _, _, _, _) => PutSome(m, RunLua(t, c.turn))
    case ErrorFrame(_) => PutSome(n, Unwind(t))
    case _ => None
  }

  /** A thread that has stopped running leaves the stack; the thread below it gets its result. */
  function Settle(n: Network): (m: Option<Network>)
    requires Formed(n) && |n.stack| > 1
    ensures m.Some? ==> Formed(m.value)
  {
    var ended, m := Top(n), n.(stack := n.stack[..|n.stack| - 1]);
    var t := Top(m);
    if Mode(t) != Waiting then Some(Put(m, Push(t, ErrorFrame(BadThreadMode(Mode(t))))))
    else
      var u := t.(frames := Pop(t.frames));
      match Mode(ended)
      case Result =>
        (match TakeResult(ended)
         case None => None
         case Some((rest, taken)) =>
           var k := m.(threads := m.threads[TopId(n) := rest]);
           match taken
           case Values(values) => PutSome(k, ReturnTo(u.(stack := u.stack + values), |u.stack|))
           case Failure(error) => Some(Put(k, Push(u, ErrorFrame(error)))))
      case Normal => None
      case mode => Some(Put(m, Push(u, ErrorFrame(BadThreadMode(mode)))))
  }

  datatype Progress = Finished | Continues(next: Network)

  /** One round of the loop in `Executor::step`. */
  function Iterate(n: Network, c: Choice): Option<Progress>
    requires Formed(n)
  {
    if Mode(Top(n)) != Normal && |n.stack| == 1 then Some(Finished)
    else
      var ready := if Mode(Top(n)) == Normal then Some(n) else Settle(n);
      if ready.None? then None
      else if Mode(Top(ready.value)) == Normal then
        var next := Turn(ready.value, c);
        if next.Some? then Some(Continues(next.value)) else None
      else Some(Continues(ready.value))
  }

  // The executor's interface: `Some(Err)` of the source is `Refuses`.

  datatype ExecutorMode = EmptyMode | ResultMode | NormalMode | SuspendedMode

  function ModeOf(n: Network): Option<ExecutorMode>
    requires Formed(n)
  {
    if |n.stack| > 1 then Some(NormalMode)
    else match Mode(Top(n))
      case Stopped => Some(EmptyMode)
      case Result => Some(ResultMode)
      case Normal => Some(NormalMode)
      case Suspended => Some(SuspendedMode)
      case _ => None
  }
}
