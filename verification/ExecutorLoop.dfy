/** The executor as the object that it is in the source: `step` pops and pushes its thread stack in a
    loop. Proved against `ExecutorSteps.Step`. */
module ExecutorLoop {
  import opened Values
  import opened Threads
  import opened LuaTurns
  import opened FuelSpec
  import opened FuelCounter
  import opened Executors
  import opened ExecutorSafety
  import S = ExecutorSteps

  class Executor {
    var threads: map<Id, Thread>
    var threadStack: seq<Id>

    function Value(): Network
      reads this
    {
      Network(threads, threadStack)
    }

    constructor (all: map<Id, Thread>, main: Id)
      requires main in all
      ensures Value() == Network(all, [main]) && Formed(Value())
    {
      threads, threadStack := all, [main];
    }

    method Store(t: Thread)
      requires threadStack != []
      modifies this`threads
      ensures Value() == Put(old(Value()), t)
    {
      threads := threads[threadStack[|threadStack| - 1] := t];
    }

    /** Resumes `id` for the top thread, now `self`, which stays on the stack if it has frames to go back to. */
    method Transferring(self: Thread, id: Id, args: seq<StackValue>, stays: bool)
      requires threadStack != [] && Transfer(Value(), self, id, args, stays).Some?
      modifies this
      ensures Transfer(old(Value()), self, id, args, stays) == Some(Value())
    {
      var top := threadStack[|threadStack| - 1];
      match TryResume(Value(), top, id, args) {
        case Refused(error) => Store(Push(self, ErrorFrame(error)));
        case Restarted(u) =>
          Store(self);
          threads := threads[id := u];
          if !stays {
            threadStack := threadStack[..|threadStack| - 1];
          }
          threadStack := threadStack + [id];
      }
    }

    method CallbackReturn(t: Thread, bottom: nat, reply: Reply)
      requires threadStack != [] && bottom <= |t.stack| && Answer(Value(), t, bottom, reply).Some?
      modifies this
      ensures Answer(old(Value()), t, bottom, reply) == Some(Value())
    {
      hide Transfer, ReturnTo, PushCall;
      match reply {
        case Returning => Store(ReturnTo(t, bottom).value);
        case Continuing(sequence) => Store(Push(t, Sequence(bottom, sequence, None)));
        case Failing(error) => Store(Push(t.(stack := t.stack[..bottom]), ErrorFrame(error)));
        case Calling(f, after) => Store(PushCall(PushThen(t, bottom, after), bottom, f).value);
        case Yielding(None, after) => Store(Push(Push(PushThen(t, bottom, after), Yielded), ResultFrame(bottom)));
        case Yielding(Some(id), after) =>
          var self := Push(PushThen(t.(stack := t.stack[..bottom]), bottom, after), Yielded);
          Transferring(self, id, t.stack[bottom..], false);
        case Resuming(id, after) =>
          var self := Push(PushThen(t.(stack := t.stack[..bottom]), bottom, after), WaitThread);
          Transferring(self, id, t.stack[bottom..], |self.frames| != 1);
      }
    }

    /** Pops a thread that has stopped running and tells the one below. */
    method Settling()
      requires Formed(Value()) && |threadStack| > 1 && Settle(Value()).Some?
      modifies this
      ensures Settle(old(Value())) == Some(Value())
    {
      hide TakeResult, ReturnTo;
      var endedId := threadStack[|threadStack| - 1];
      var ended := threads[endedId];
      threadStack := threadStack[..|threadStack| - 1];
      var t := threads[threadStack[|threadStack| - 1]];
      if Mode(t) != Waiting {
        Store(Push(t, ErrorFrame(BadThreadMode(Mode(t)))));
        return;
      }
      t := t.(frames := t.frames[..|t.frames| - 1]);
      if Mode(ended) == Result {
        var (rest, taken) := TakeResult(ended).value;
        threads := threads[endedId := rest];
        match taken {
          case Values(values) =>
            var bottom := |t.stack|;
            t := t.(stack := t.stack + values);
            Store(ReturnTo(t, bottom).value);
          case Failure(error) => Store(Push(t, ErrorFrame(error)));
        }
      } else {
        Store(Push(t, ErrorFrame(BadThreadMode(Mode(ended)))));
      }
    }

    /** The turn of the top thread. */
    method TakeTurn(c: Choice, fuel: Counter)
      requires Formed(Value()) && Top(Value()).frames != [] && Turn(Value(), c).Some?
      requires fuel.Valid() && forall u :: u in c.fuel && (u.Adjusts? || u.Sets?) ==> IsI32(u.n)
      modifies this, fuel
      ensures Turn(old(Value()), c) == Some(Value())
      ensures fuel.Valid() && fuel.Value() == S.BurnTurn(old(fuel.Value()), old(Value()), c)
    {
      hide Answer, RunLua, Unwind;
      var t := threads[threadStack[|threadStack| - 1]];
      var frame := t.frames[|t.frames| - 1];
      t := t.(frames := t.frames[..|t.frames| - 1]);
      match frame {
        case CallbackFrame(bottom, _) =>
          fuel.Consuming(S.FUEL_PER_CALLBACK);
          fuel.Using(c.fuel);
          threads := threads + c.effects;
          CallbackReturn(t.(stack := t.stack[..bottom] + c.window), bottom, c.reply);
        case Sequence(bottom, _, _) =>
          fuel.Consuming(S.FUEL_PER_SEQ_STEP);
          fuel.Using(c.fuel);
          threads := threads + c.effects;
          CallbackReturn(t.(stack := t.stack[..bottom] + c.window), bottom, c.reply);
        case Lua(_, _, _, _, _, _) =>
          t := t.(frames := t.frames + [frame]);
          fuel.Using(c.fuel);
          threads := threads + c.effects;
          assert t == Top(old(Value()));
          Store(RunLua(t, c.turn).value);
        case ErrorFrame(_) => Store(Unwind(threads[threadStack[|threadStack| - 1]]).value);
      }
    }

    method Step(fuel: Counter, choices: seq<Choice>) returns (used: nat, end: S.End)
      requires Formed(Value()) && fuel.Valid() && S.Step(Value(), fuel.Value(), choices).Some?
      requires forall c, u :: c in choices && u in c.fuel && (u.Adjusts? || u.Sets?) ==> IsI32(u.n)
      modifies this, fuel
      ensures S.Step(old(Value()), old(fuel.Value()), choices) == Some(S.Stepped(Value(), fuel.Value(), used, end))
    {
      hide S.Round, S.Burn, Mode;
      used := 0;
      while true
        invariant used <= |choices| && Formed(Value()) && fuel.Valid()
        invariant S.Step(Value(), fuel.Value(), choices[used..]).Some?
        invariant var s := S.Step(Value(), fuel.Value(), choices[used..]).value;
                  S.Step(old(Value()), old(fuel.Value()), choices) == Some(s.(used := used + s.used))
        decreases |choices| - used
      {
        if Mode(threads[threadStack[|threadStack| - 1]]) != Normal && |threadStack| == 1 {
          return used, S.AllDone;
        }
        if used == |choices| {
          return used, S.Paused;
        }
        assert choices[used] in choices && choices[used..][0] == choices[used] && choices[used..][1..] == choices[used + 1..];
        RunRound(fuel, choices[used]);
        used := used + 1;
        if fuel.fuel <= 0 || fuel.interrupted {
          return used, S.OutOfFuel;
        }
      }
    }

    method RunRound(fuel: Counter, c: Choice)
      requires Formed(Value()) && fuel.Valid() && !S.Halted(Value()) && S.Round(Value(), c).Some?
      requires forall u :: u in c.fuel && (u.Adjusts? || u.Sets?) ==> IsI32(u.n)
      modifies this, fuel
      ensures S.Round(old(Value()), c) == Some(Value())
      ensures fuel.Valid() && fuel.Value() == S.Burn(old(fuel.Value()), old(Value()), c)
    {
      hide Settle, Turn, S.BurnTurn;
      if Mode(threads[threadStack[|threadStack| - 1]]) != Normal {
        Settling();
      }
      if Mode(threads[threadStack[|threadStack| - 1]]) == Normal {
        TakeTurn(c, fuel);
      }
      fuel.Consuming(S.FUEL_PER_STEP);
    }
  }
}
