/** Lua threads: piccolo/src/thread/thread.rs, with its frames and its value stack. `None` as the
    result of an operation is a Rust panic: a failed `assert!`, a `panic!` or an index out of range. */
module Threads {
  import opened Values

  /** What a call needs to know of a compiled function. */
  datatype Prototype = Prototype(fixedParams: nat, stackSize: nat)
  datatype Function = Closure(id: nat, proto: Prototype) | Callback(id: nat)

  datatype StackValue = NilValue | BoolValue(b: bool) | FunctionValue(f: Function) | OtherValue(id: nat)

  predicate Truthy(v: StackValue) {
    v != NilValue && v != BoolValue(false)
  }

  /** A number of values: a constant, or as many as there are (`None`). */
  type VarCount = Option<nat>

  datatype MetaReturn = NoResult | ToRegister(reg: nat) | SkipIf(skip: bool)
  datatype LuaReturn = NormalReturn(count: VarCount) | MetaMethod(meta: MetaReturn)

  datatype Error = Raised(id: nat) | BadThreadMode(found: ThreadMode) | BadCall

  datatype ThreadMode = Stopped | Result | Normal | Suspended | Waiting | Running

  datatype Frame =
    | Lua(bottom: nat, base: nat, isVariable: bool, pc: nat, stackSize: nat, expected: Option<LuaReturn>)
    | StartFrame(entry: Function)
    | Yielded
    | CallbackFrame(bottom: nat, callback: nat)
    | Sequence(bottom: nat, sequence: nat, pending: Option<Error>)
    | WaitThread
    | ResultFrame(bottom: nat)
    | ErrorFrame(error: Error)

  /** `open` are the stack slots that open upvalues refer to. */
  datatype Thread = Thread(frames: seq<Frame>, stack: seq<StackValue>, open: set<nat>)

  function Mode(t: Thread): ThreadMode {
    if t.frames == [] then Stopped
    else match t.frames[|t.frames| - 1]
      case Lua(_, _, _, _, _, _) => Normal
      case CallbackFrame(_, _) => Normal
      case Sequence(_, _, _) => Normal
      case StartFrame(_) => Suspended
      case Yielded => Suspended
      case WaitThread => Waiting
      case ResultFrame(_) => Result
      case ErrorFrame(_) => if |t.frames| == 1 then Result else Normal
  }

  // Vectors.

  function Nils(n: nat): (r: seq<StackValue>)
    ensures |r| == n && forall i :: 0 <= i < n ==> r[i] == NilValue
  {
    seq(n, _ => NilValue)
  }

  function Truncate(s: seq<StackValue>, n: nat): seq<StackValue> {
    if n < |s| then s[..n] else s
  }

  function Resize(s: seq<StackValue>, n: nat): (r: seq<StackValue>)
    ensures |r| == n
    ensures forall i :: 0 <= i < n ==> r[i] == if i < |s| then s[i] else NilValue
  {
    if n <= |s| then s[..n] else s + Nils(n - |s|)
  }

  function Pop(fs: seq<Frame>): seq<Frame>
    requires fs != []
  {
    fs[..|fs| - 1]
  }

  function Last(fs: seq<Frame>): Frame
    requires fs != []
  {
    fs[|fs| - 1]
  }

  function Min(a: nat, b: nat): nat {
    if a < b then a else b
  }

  // Calls.

  /** The arguments of a call as the callee's frame wants them: the excess ones first. */
  function Rotated(args: seq<StackValue>, fixed: nat): seq<StackValue> {
    if |args| > fixed then args[fixed..] + args[..fixed] else args
  }

  function Excess(args: nat, fixed: nat): nat {
    if args > fixed then args - fixed else 0
  }

  function NewLua(bottom: nat, base: nat, stackSize: nat): Frame {
    Lua(bottom, base, false, 0, stackSize, None)
  }

  /** The frame of a closure called with the arguments behind `bottom`, which replace all above them. */
  function Enter(frames: seq<Frame>, lower: seq<StackValue>, f: Function, args: seq<StackValue>, open: set<nat>): Thread
    requires f.Closure?
  {
    var bottom := |lower|;
    var base := bottom + 1 + Excess(|args|, f.proto.fixedParams);
    Thread(frames + [NewLua(bottom, base, f.proto.stackSize)],
           Resize(lower + [FunctionValue(f)] + Rotated(args, f.proto.fixedParams), base + f.proto.stackSize),
           open)
  }

  /** `push_call`: calls a function whose arguments are all values from `bottom` on. */
  function PushCall(t: Thread, bottom: nat, f: Function): Option<Thread> {
    if bottom > |t.stack| then None
    else match f
      case Closure(_, _) => Some(Enter(t.frames, t.stack[..bottom], f, t.stack[bottom..], t.open))
      case Callback(c) => Some(t.(frames := t.frames + [CallbackFrame(bottom, c)]))
  }

  /** The values a caller that expects `count` values receives. */
  function Delivered(values: seq<StackValue>, count: VarCount): (r: seq<StackValue>)
    ensures count.None? ==> r == values
    ensures count.Some? ==> |r| == count.value
    ensures count.Some? ==> forall i :: 0 <= i < |r| ==> r[i] == if i < |values| then values[i] else NilValue
  {
    if count.None? then values else Resize(values, count.value)
  }

  /** A metamethod's result, after the stack has been cut back to the caller's registers. */
  function FinishMeta(t: Thread, f: Frame, meta: MetaReturn, v: StackValue): Option<Thread>
    requires f.Lua?
  {
    var g := f.(isVariable := false, expected := None);
    match meta
    case NoResult => Some(t.(frames := t.frames + [g]))
    case ToRegister(r) =>
      if f.base + r < |t.stack|
      then Some(t.(frames := t.frames + [g], stack := t.stack[f.base + r := v]))
      else None
    case SkipIf(skip) =>
      Some(t.(frames := t.frames + [if Truthy(v) == skip then g.(pc := g.pc + 1) else g]))
  }

  /** The results of a normal call: as many of the values from `bottom` on as the caller expects. */
  function FinishNormal(t: Thread, f: Frame, bottom: nat, count: VarCount): Thread
    requires f.Lua? && bottom <= |t.stack|
  {
    var length := if count.Some? then count.value else |t.stack| - bottom;
    var stack := Truncate(t.stack, bottom + length);
    t.(frames := t.frames + [f.(isVariable := count.None?, expected := None)],
       stack := if count.Some? then Resize(stack, f.base + f.stackSize) else stack)
  }

  /** `return_to`: the values from `bottom` on are the results for the top frame. */
  function ReturnTo(t: Thread, bottom: nat): Option<Thread> {
    if t.frames == [] then Some(t.(frames := [ResultFrame(bottom)]))
    else
      var f, rest := Last(t.frames), Pop(t.frames);
      if f.Sequence? then if bottom == f.bottom then Some(t) else None
      else if f.Lua? then
        if bottom > |t.stack| || f.expected.None? then None
        else match f.expected.value
          case NormalReturn(count) => Some(FinishNormal(t.(frames := rest), f, bottom, count))
          case MetaMethod(meta) =>
            var v := if bottom < |t.stack| then t.stack[bottom] else NilValue;
            FinishMeta(t.(frames := rest, stack := Resize(Truncate(t.stack, bottom), f.base + f.stackSize)), f, meta, v)
      else None
  }

  /** `take_result`: the values or the error of a thread in `Result` mode. */
  datatype Taken = Values(values: seq<StackValue>) | Failure(error: Error)

  function TakeResult(t: Thread): Option<(Thread, Taken)> {
    if t.frames == [] then None
    else match Last(t.frames)
      case ResultFrame(bottom) =>
        if bottom > |t.stack| then None
        else Some((t.(frames := Pop(t.frames), stack := t.stack[..bottom]), Values(t.stack[bottom..])))
      case ErrorFrame(e) =>
        if t.stack != [] || Pop(t.frames) != [] || t.open != {} then None
        else Some((t.(frames := []), Failure(e)))
      case _ => None
  }

  function CloseUpvalues(open: set<nat>, bottom: nat): set<nat> {
    set x | x in open && x < bottom
  }

  // Resuming from outside.

  function Resume(t: Thread, args: seq<StackValue>): Option<Thread>
    requires Mode(t) == Suspended
  {
    var bottom := |t.stack|;
    var u := t.(frames := Pop(t.frames), stack := t.stack + args);
    match Last(t.frames)
    case StartFrame(f) => if bottom == 0 && t.open == {} && u.frames == [] then PushCall(u, 0, f) else None
    case Yielded => ReturnTo(u, bottom)
    case _ => None
  }

  function ResumeErr(t: Thread, error: Error): Option<Thread>
    requires Mode(t) == Suspended
  {
    match Last(t.frames)
    case StartFrame(_) => Some(t.(frames := Pop(t.frames) + [ErrorFrame(error)]))
    case Yielded => Some(t.(frames := Pop(t.frames) + [ErrorFrame(error)]))
    case _ => None
  }

  // What the virtual machine does to the top Lua frame. The register and the counts are the operands
  // of the instruction, and `callee` is the function the called value stands for, if it is callable.

  predicate RunsLua(t: Thread) {
    t.frames != [] && Last(t.frames).Lua?
  }

  function Expecting(t: Thread, r: LuaReturn): seq<Frame>
    requires RunsLua(t)
  {
    Pop(t.frames) + [Last(t.frames).(expected := Some(r))]
  }

  /** A call of the function at `index` with the `count` values behind it. */
  function CallAt(t: Thread, index: nat, count: nat, f: Function): Thread
    requires index < |t.stack|
    requires f.Closure? && count > f.proto.fixedParams ==> index + 1 + count <= |t.stack|
  {
    match f
    case Closure(_, proto) =>
      var above := if count > proto.fixedParams then Rotated(t.stack[index + 1..index + 1 + count], proto.fixedParams)
                   else t.stack[index + 1..];
      var base := index + 1 + Excess(count, proto.fixedParams);
      t.(frames := t.frames + [NewLua(index, base, proto.stackSize)],
         stack := Resize(t.stack[..index] + [FunctionValue(f)] + above, base + proto.stackSize))
    case Callback(c) =>
      t.(frames := t.frames + [CallbackFrame(index, c)],
         stack := Truncate(t.stack[..index] + t.stack[index + 1..], index + count))
  }

  /** `call_function`. A missing argument is whatever the slot behind the arguments holds. */
  function CallFunction(t: Thread, func: nat, args: VarCount, results: VarCount, callee: Option<Function>): Option<Thread>
    requires RunsLua(t)
  {
    var index := Last(t.frames).base + func;
    var frames := Expecting(t, NormalReturn(results));
    if index >= |t.stack| then None else
    var count := if args.Some? then args.value else |t.stack| - index - 1;
    if callee.None? then Some(t.(frames := frames + [ErrorFrame(BadCall)]))
    else if callee.value.Closure? && count > callee.value.proto.fixedParams && index + 1 + count > |t.stack| then None
    else Some(CallAt(t.(frames := frames), index, count, callee.value))
  }

  /** A call of a copy of the function at `index` and of the `count` values behind it. */
  function CallCopy(t: Thread, index: nat, count: nat, f: Function): Thread
    requires f.Callback? ==> index + 1 + count <= |t.stack|
  {
    var top := index + 1 + count;
    match f
    case Closure(_, _) =>
      var lower := Resize(t.stack, top);
      Enter(t.frames, lower, f, lower[index + 1..top], t.open)
    case Callback(c) => t.(frames := t.frames + [CallbackFrame(top, c)], stack := t.stack[..top] + t.stack[index + 1..top])
  }

  /** `call_function_keep`: the function and its arguments stay, and a copy placed behind them is called. */
  function CallFunctionKeep(t: Thread, func: nat, args: nat, results: VarCount, callee: Option<Function>): Option<Thread>
    requires RunsLua(t)
  {
    var index := Last(t.frames).base + func;
    var frames := Expecting(t, NormalReturn(results));
    if index >= |t.stack| then None
    else if callee.None? then Some(t.(frames := frames + [ErrorFrame(BadCall)]))
    else if callee.value.Callback? && index + 1 + args > |t.stack| then None
    else Some(CallCopy(t.(frames := frames), index, args, callee.value))
  }

  /** `call_meta_function`: a call above all registers of the frame. */
  function CallMetaFunction(t: Thread, args: seq<StackValue>, meta: MetaReturn, callee: Option<Function>): Option<Thread>
    requires RunsLua(t)
  {
    var f := Last(t.frames);
    var frames := Expecting(t, MetaMethod(meta));
    var top := f.base + f.stackSize;
    if callee.None? then Some(t.(frames := frames + [ErrorFrame(BadCall)]))
    else match callee.value
      case Closure(_, _) => Some(Enter(frames, Resize(t.stack, top), callee.value, args, t.open))
      case Callback(c) => Some(t.(frames := frames + [CallbackFrame(top, c)], stack := t.stack + args))
  }

  /** `tail_call_function`: the callee takes the place of the frame. */
  function TailCallFunction(t: Thread, func: nat, args: VarCount, callee: Option<Function>): Option<Thread>
    requires RunsLua(t)
  {
    var f := Last(t.frames);
    var index := f.base + func;
    if index >= |t.stack| then None else
    var count := if args.Some? then args.value else |t.stack| - index - 1;
    if index + 1 + count > |t.stack| || f.bottom > index then None
    else if callee.None? then Some(t.(frames := t.frames + [ErrorFrame(BadCall)]))
    else
      var u := Thread(Pop(t.frames), t.stack, CloseUpvalues(t.open, f.bottom));
      var values := t.stack[index + 1..index + 1 + count];
      match callee.value
      case Closure(_, proto) =>
        if count < proto.fixedParams && f.bottom + 1 + proto.fixedParams > |t.stack| then None
        else Some(TailClosure(u, f.bottom, callee.value, values))
      case Callback(c) => Some(u.(frames := u.frames + [CallbackFrame(f.bottom, c)], stack := t.stack[..f.bottom] + values))
  }

  /** A closure without varargs in place of a popped frame. Registers behind the parameters keep what is in `kept`. */
  function EnterPlain(frames: seq<Frame>, lower: seq<StackValue>, f: Function, values: seq<StackValue>, kept: seq<StackValue>, open: set<nat>): Thread
    requires f.Closure? && |values| <= f.proto.fixedParams
  {
    var base := |lower| + 1;
    Thread(frames + [NewLua(|lower|, base, f.proto.stackSize)],
           Resize(lower + [FunctionValue(f)] + (values + Nils(f.proto.fixedParams - |values|) + kept), base + f.proto.stackSize),
           open)
  }

  /** A closure in place of a popped frame, whose values began at `bottom`. */
  function TailClosure(t: Thread, bottom: nat, f: Function, values: seq<StackValue>): Thread
    requires f.Closure? && bottom <= |t.stack|
    requires |values| < f.proto.fixedParams ==> bottom + 1 + f.proto.fixedParams <= |t.stack|
  {
    var params := bottom + 1 + f.proto.fixedParams;
    if |values| > f.proto.fixedParams then Enter(t.frames, t.stack[..bottom], f, values, t.open)
    else EnterPlain(t.frames, t.stack[..bottom], f, values, if params <= |t.stack| then t.stack[params..] else [], t.open)
  }

  /** Results that a Lua frame returns to the Lua frame `f`, behind the stack that `f` has below its callee. */
  function FinishUpper(t: Thread, f: Frame, values: seq<StackValue>, results: VarCount): Thread
    requires f.Lua?
  {
    var stack := t.stack + Delivered(values, results);
    t.(frames := t.frames + [f.(isVariable := results.None?, expected := None)],
       stack := if results.Some? then Resize(stack, f.base + f.stackSize) else stack)
  }

  /** The values that a popped frame returns to the frame below it; its own values began at `bottom`. */
  function ReturnValues(t: Thread, bottom: nat, values: seq<StackValue>): Option<Thread>
    requires bottom <= |t.stack|
  {
    if t.frames == [] then
      if bottom == 0 then Some(t.(frames := [ResultFrame(0)], stack := values)) else None
    else
      var f, rest := Last(t.frames), Pop(t.frames);
      if f.Sequence? then if bottom == f.bottom then Some(t.(stack := t.stack[..bottom] + values)) else None
      else if f.Lua? then
        if f.expected.None? then None
        else match f.expected.value
          case NormalReturn(results) => Some(FinishUpper(t.(frames := rest, stack := t.stack[..bottom]), f, values, results))
          case MetaMethod(meta) =>
            var v := if values != [] then values[0] else NilValue;
            FinishMeta(t.(frames := rest, stack := Resize(t.stack, f.base + f.stackSize)), f, meta, v)
      else None
  }

  /** `return_upper`: returns `count` values from register `start` on to the frame below. */
  function ReturnUpper(t: Thread, start: nat, count: VarCount): Option<Thread>
    requires RunsLua(t)
  {
    var f := Last(t.frames);
    var first := f.base + start;
    if first > |t.stack| then None else
    var n := if count.Some? then count.value else |t.stack| - first;
    if first + n > |t.stack| || f.bottom > first then None
    else ReturnValues(Thread(Pop(t.frames), t.stack, CloseUpvalues(t.open, f.bottom)), f.bottom, t.stack[first..first + n])
  }
}
