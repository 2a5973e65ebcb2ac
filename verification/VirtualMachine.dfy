/** The loop of `run_vm` (piccolo/src/thread/vm.rs) over the registers of a frame, which operations change in
    place. Proved against `Machine.Steps`. */
module VirtualMachines {
  import opened Values
  import opened Machine

  /** Why an instruction ends the loop. */
  datatype Ending = Goes | Ends(m: Machine)

  class VirtualMachine {
    const host: Host
    const program: Program
    const stackFrame: array<Value>
    var pc: nat
    var globals: Globals

    function Value(): Machine
      reads this, stackFrame
    {
      Running(pc, stackFrame[..], globals)
    }

    /** The machine after an instruction: where the fields are now, or how it has ended. */
    function After(e: Ending): Machine
      reads this, stackFrame
    {
      if e.Goes? then Value() else e.m
    }

    constructor (h: Host, p: Program, frame: array<Values.Value>, g: Globals)
      ensures host == h && program == p && stackFrame == frame && Value() == Running(0, frame[..], g)
    {
      host, program, stackFrame, pc, globals := h, p, frame, 0, g;
    }

    method Put(dest: nat, v: Option<Values.Value>) returns (e: Ending)
      modifies stackFrame
      ensures After(e) == Store(v, dest, pc, old(stackFrame[..]), globals)
    {
      if v.None? {
        return Ends(Failed(globals));
      }
      if dest >= stackFrame.Length {
        return Ends(Panicked);
      }
      stackFrame[dest] := v.value;
      return Goes;
    }

    method Skip(c: Option<bool>, skipIf: bool) returns (e: Ending)
      modifies this`pc
      ensures After(e) == SkipIf(c, skipIf, old(pc), stackFrame[..], globals)
    {
      if c.None? {
        return Ends(Failed(globals));
      }
      if c.value == skipIf {
        pc := pc + 1;
      }
      return Goes;
    }

    method JumpBy(offset: int) returns (e: Ending)
      modifies this`pc
      ensures After(e) == JumpTo(old(pc) + offset, stackFrame[..], globals)
    {
      if pc + offset < 0 {
        return Ends(Panicked);
      }
      pc := pc + offset;
      return Goes;
    }

    method ClearRange(dest: nat, count: nat)
      requires dest + count <= stackFrame.Length
      modifies stackFrame
      ensures stackFrame[..] == NilRange(old(stackFrame[..]), dest, count)
    {
      var i := dest;
      while i < dest + count
        invariant dest <= i <= dest + count
        invariant forall k :: 0 <= k < stackFrame.Length ==> stackFrame[k] == if dest <= k < i then Nil else old(stackFrame[k])
      {
        stackFrame[i] := Nil;
        i := i + 1;
      }
    }

    method NumericForPrep(base: nat, jump: int) returns (e: Ending)
      modifies this`pc, stackFrame
      ensures After(e) == Execute(host, program, Operation.NumericForPrep(base, jump), old(pc), old(stackFrame[..]), globals)
    {
      if base + 2 >= stackFrame.Length {
        return Ends(Panicked);
      }
      var index := Binary(host, Sub, stackFrame[base], stackFrame[base + 2]);
      if index.None? {
        return Ends(Failed(globals));
      }
      stackFrame[base] := index.value;
      e := JumpBy(jump);
    }

    method NumericForLoop(base: nat, jump: int) returns (e: Ending)
      modifies this`pc, stackFrame
      ensures After(e) == Execute(host, program, Operation.NumericForLoop(base, jump), old(pc), old(stackFrame[..]), globals)
    {
      if base + 3 >= stackFrame.Length {
        return Ends(Panicked);
      }
      var index := ForNext(host, stackFrame[base], stackFrame[base + 1], stackFrame[base + 2]);
      if index.None? {
        return Ends(Failed(globals));
      }
      stackFrame[base] := index.value;
      if PastEnd(host, index.value, stackFrame[base + 1], stackFrame[base + 2]) {
        return Goes;
      }
      stackFrame[base + 3] := index.value;
      assert stackFrame[..] == old(stackFrame[..])[base := index.value][base + 3 := index.value];
      e := JumpBy(jump);
    }

    /** One instruction, with the counter already behind it. */
    method Perform(op: Operation) returns (e: Ending)
      modifies this, stackFrame
      ensures After(e) == Execute(host, program, op, old(pc), old(stackFrame[..]), old(globals))
    {
      hide Binary, Unary, Values.Less, LessOrEqual, IsEqual, ForNext, PastEnd;
      ghost var regs := stackFrame[..];
      match op {
        case Move(dest, source) =>
          if source >= stackFrame.Length {
            return Ends(Panicked);
          }
          e := Put(dest, Some(stackFrame[source]));
        case LoadConstant(dest, constant) =>
          if constant >= |program.constants| {
            return Ends(Panicked);
          }
          e := Put(dest, Some(program.constants[constant]));
        case LoadBool(dest, value, skipNext) =>
          if skipNext {
            pc := pc + 1;
          }
          e := Put(dest, Some(Boolean(value)));
        case LoadNil(dest, count) =>
          if dest + count > stackFrame.Length {
            return Ends(Panicked);
          }
          ClearRange(dest, count);
          return Goes;
        case GetUpTable(dest, _, key) =>
          if !Readable(program, stackFrame[..], key) || !Read(program, stackFrame[..], key).String? {
            return Ends(Panicked);
          }
          e := Put(dest, Some(GetGlobal(globals, Read(program, stackFrame[..], key).s)));
        case SetUpTable(_, key, val) =>
          if !Readable(program, stackFrame[..], key) || !Readable(program, stackFrame[..], val)
             || !Read(program, stackFrame[..], key).String? {
            return Ends(Panicked);
          }
          globals := SetGlobal(globals, Read(program, stackFrame[..], key).s, Read(program, stackFrame[..], val));
          return Goes;
        case Return(start, count) =>
          return Ends(if start + count <= stackFrame.Length then Returned(stackFrame[start..start + count], globals) else Panicked);
        case Jump(offset, _) => e := JumpBy(offset);
        case Test(source, isTrue) =>
          if source >= stackFrame.Length {
            return Ends(Panicked);
          }
          e := Skip(Some(ToBool(stackFrame[source])), isTrue);
        case TestSet(dest, source, isTrue) =>
          if source >= stackFrame.Length || dest >= stackFrame.Length {
            return Ends(Panicked);
          }
          if ToBool(stackFrame[source]) == isTrue {
            pc := pc + 1;
          } else {
            stackFrame[dest] := stackFrame[source];
          }
          return Goes;
        case NumericForPrep(base, jump) => e := NumericForPrep(base, jump);
        case NumericForLoop(base, jump) => e := NumericForLoop(base, jump);
        case Eq(skipIf, left, right) =>
          if !Readable(program, stackFrame[..], left) || !Readable(program, stackFrame[..], right) {
            return Ends(Panicked);
          }
          e := Skip(Some(IsEqual(host, Read(program, stackFrame[..], left), Read(program, stackFrame[..], right))), skipIf);
        case Less(skipIf, left, right) =>
          if !Readable(program, stackFrame[..], left) || !Readable(program, stackFrame[..], right) {
            return Ends(Panicked);
          }
          e := Skip(Values.Less(host, Read(program, stackFrame[..], left), Read(program, stackFrame[..], right)), skipIf);
        case LessEq(skipIf, left, right) =>
          if !Readable(program, stackFrame[..], left) || !Readable(program, stackFrame[..], right) {
            return Ends(Panicked);
          }
          e := Skip(LessOrEqual(host, Read(program, stackFrame[..], left), Read(program, stackFrame[..], right)), skipIf);
        case UnaryOperation(uop, dest, source) =>
          if source >= stackFrame.Length {
            return Ends(Panicked);
          }
          e := Put(dest, Unary(host, uop, stackFrame[source]));
        case Arithmetic(aop, dest, left, right) =>
          if !Readable(program, stackFrame[..], left) || !Readable(program, stackFrame[..], right) {
            return Ends(Panicked);
          }
          e := Put(dest, Binary(host, aop, Read(program, stackFrame[..], left), Read(program, stackFrame[..], right)));
      }
    }

    /** Runs at most that many instructions, and tells how many. */
    method RunVm(maxInstructions: nat) returns (run: nat, e: Ending)
      modifies this, stackFrame
      ensures run <= maxInstructions && (e.Goes? ==> run == maxInstructions)
      ensures After(e) == Steps(host, program, old(Value()), run)
    {
      run, e := 0, Goes;
      ghost var start := Value();
      while run < maxInstructions
        invariant run <= maxInstructions && e.Goes? && Value() == Steps(host, program, start, run)
      {
        hide Execute;
        StepsCompose(host, program, start, run, 1);
        OneStep(host, program, Value());
        run := run + 1;
        if pc >= |program.code| {
          e := Ends(Panicked);
          return;
        }
        var op := program.code[pc];
        pc := pc + 1;
        e := Perform(op);
        if e.Ends? {
          return;
        }
      }
    }
  }
}
