/** The register machine of piccolo/src/thread/vm.rs, for code that calls no function. */
module Machine {
  import opened Values

  datatype RC = Register(r: nat) | Constant(c: nat)

  datatype Operation =
    | Move(dest: nat, source: nat)
    | LoadConstant(dest: nat, constant: nat)
    | LoadBool(dest: nat, value: bool, skipNext: bool)
    | LoadNil(dest: nat, count: nat)
    | GetUpTable(dest: nat, table: nat, key: RC)
    | SetUpTable(table: nat, key: RC, val: RC)
    | Return(start: nat, count: nat)
    | Jump(offset: int, closeUpvalues: Option<nat>)
    | Test(source: nat, isTrue: bool)
    | TestSet(dest: nat, source: nat, isTrue: bool)
    | NumericForPrep(base: nat, jump: int)
    | NumericForLoop(base: nat, jump: int)
    | Eq(skipIf: bool, left: RC, right: RC)
    | Less(skipIf: bool, left: RC, right: RC)
    | LessEq(skipIf: bool, left: RC, right: RC)
    | UnaryOperation(uop: UnaryOp, dest: nat, source: nat)
    | Arithmetic(op: SimpleBinOp, dest: nat, left: RC, right: RC)

  type Globals = map<string, Value>

  function GetGlobal(g: Globals, name: string): Value {
    if name in g then g[name] else Nil
  }

  /** Assigning nil to a global removes it. */
  function SetGlobal(g: Globals, name: string, v: Value): Globals {
    if v == Nil then g - {name} else g[name := v]
  }

  /** Reading a global gives what was assigned last, and other globals keep their values. */
  lemma AssignedIsRead(g: Globals, name: string, v: Value, other: string)
    ensures GetGlobal(SetGlobal(g, name, v), other) == if other == name then v else GetGlobal(g, other)
  {
  }

  datatype Program = Program(code: seq<Operation>, constants: seq<Value>)

  /** `Returned` and `Failed` are the two ways a Lua function ends; `Panicked` is a Rust panic. */
  datatype Machine =
    | Running(pc: nat, regs: seq<Value>, globals: Globals)
    | Returned(values: seq<Value>, globals: Globals)
    | Failed(globals: Globals)
    | Panicked

  predicate Readable(p: Program, regs: seq<Value>, rc: RC) {
    match rc
    case Register(r) => r < |regs|
    case Constant(c) => c < |p.constants|
  }

  function Read(p: Program, regs: seq<Value>, rc: RC): Value
    requires Readable(p, regs, rc)
  {
    match rc
    case Register(r) => regs[r]
    case Constant(c) => p.constants[c]
  }

  function NilRange(regs: seq<Value>, start: nat, count: nat): seq<Value>
    requires start + count <= |regs|
  {
    seq(|regs|, i requires 0 <= i < |regs| => if start <= i < start + count then Nil else regs[i])
  }

  function JumpTo(pc: int, regs: seq<Value>, g: Globals): Machine {
    if pc >= 0 then Running(pc, regs, g) else Panicked
  }

  function SkipIf(c: Option<bool>, skipIf: bool, pc: nat, regs: seq<Value>, g: Globals): Machine {
    if c.None? then Failed(g)
    else Running(if c.value == skipIf then pc + 1 else pc, regs, g)
  }

  function Store(v: Option<Value>, dest: nat, pc: nat, regs: seq<Value>, g: Globals): Machine {
    if v.None? then Failed(g)
    else if dest < |regs| then Running(pc, regs[dest := v.value], g)
    else Panicked
  }

  /** One turn of the `run_vm` loop. The upvalue table holds `_ENV`, the table of globals. */
  function Step(h: Host, p: Program, m: Machine): Machine {
    match m
    case Running(pc0, regs, g) =>
      if pc0 >= |p.code| then Panicked else Execute(h, p, p.code[pc0], pc0 + 1, regs, g)
    case _ => m
  }

  function Execute(h: Host, p: Program, op: Operation, pc: nat, regs: seq<Value>, g: Globals): Machine {
    match op
    case Move(dest, source) =>
      if source < |regs| then Store(Some(regs[source]), dest, pc, regs, g) else Panicked
    case LoadConstant(dest, c) =>
      if c < |p.constants| then Store(Some(p.constants[c]), dest, pc, regs, g) else Panicked
    case LoadBool(dest, value, skipNext) =>
      Store(Some(Boolean(value)), dest, if skipNext then pc + 1 else pc, regs, g)
    case LoadNil(dest, count) =>
      if dest + count <= |regs| then Running(pc, NilRange(regs, dest, count), g) else Panicked
    case GetUpTable(dest, _, key) =>
      if Readable(p, regs, key) && Read(p, regs, key).String?
      then Store(Some(GetGlobal(g, Read(p, regs, key).s)), dest, pc, regs, g)
      else Panicked
    case SetUpTable(_, key, val) =>
      if Readable(p, regs, key) && Readable(p, regs, val) && Read(p, regs, key).String?
      then Running(pc, regs, SetGlobal(g, Read(p, regs, key).s, Read(p, regs, val)))
      else Panicked
    case Return(start, count) =>
      if start + count <= |regs| then Returned(regs[start..start + count], g) else Panicked
    case Jump(offset, _) => JumpTo(pc + offset, regs, g)
    case Test(source, isTrue) =>
      if source < |regs| then SkipIf(Some(ToBool(regs[source])), isTrue, pc, regs, g) else Panicked
    case TestSet(dest, source, isTrue) =>
      if !(source < |regs| && dest < |regs|) then Panicked
      else if ToBool(regs[source]) == isTrue then Running(pc + 1, regs, g)
      else Running(pc, regs[dest := regs[source]], g)
    case NumericForPrep(base, jump) =>
      if base + 2 >= |regs| then Panicked
      else
        var index := Binary(h, Sub, regs[base], regs[base + 2]);
        if index.None? then Failed(g) else JumpTo(pc + jump, regs[base := index.value], g)
    case NumericForLoop(base, jump) =>
      if base + 3 >= |regs| then Panicked
      else
        var index := ForNext(h, regs[base], regs[base + 1], regs[base + 2]);
        if index.None? then Failed(g)
        else if PastEnd(h, index.value, regs[base + 1], regs[base + 2]) then Running(pc, regs[base := index.value], g)
        else JumpTo(pc + jump, regs[base := index.value][base + 3 := index.value], g)
    case Eq(skipIf, left, right) =>
      if Readable(p, regs, left) && Readable(p, regs, right)
      then SkipIf(Some(IsEqual(h, Read(p, regs, left), Read(p, regs, right))), skipIf, pc, regs, g)
      else Panicked
    case Less(skipIf, left, right) =>
      if Readable(p, regs, left) && Readable(p, regs, right)
      then SkipIf(Values.Less(h, Read(p, regs, left), Read(p, regs, right)), skipIf, pc, regs, g)
      else Panicked
    case LessEq(skipIf, left, right) =>
      if Readable(p, regs, left) && Readable(p, regs, right)
      then SkipIf(LessOrEqual(h, Read(p, regs, left), Read(p, regs, right)), skipIf, pc, regs, g)
      else Panicked
    case UnaryOperation(op, dest, source) =>
      if source < |regs| then Store(Unary(h, op, regs[source]), dest, pc, regs, g) else Panicked
    case Arithmetic(op, dest, left, right) =>
      if Readable(p, regs, left) && Readable(p, regs, right)
      then Store(Binary(h, op, Read(p, regs, left), Read(p, regs, right)), dest, pc, regs, g)
      else Panicked
  }

  /** `n` turns of the loop; a machine that has stopped stays as it is. */
  function Steps(h: Host, p: Program, m: Machine, n: nat): Machine
    decreases n
  {
    if n == 0 then m else Steps(h, p, Step(h, p, m), n - 1)
  }

  lemma {:induction false} StepsCompose(h: Host, p: Program, m: Machine, a: nat, b: nat)
    ensures Steps(h, p, m, a + b) == Steps(h, p, Steps(h, p, m, a), b)
    decreases a
  {
    if a == 0 {
    } else {
      StepsCompose(h, p, Step(h, p, m), a - 1, b);
    }
  }

  lemma NoSteps(h: Host, p: Program, m: Machine)
    ensures Steps(h, p, m, 0) == m
  {
  }

  lemma OneStep(h: Host, p: Program, m: Machine)
    ensures Steps(h, p, m, 1) == Step(h, p, m)
  {
  }

  lemma TwoSteps(h: Host, p: Program, m: Machine)
    ensures Steps(h, p, m, 2) == Step(h, p, Step(h, p, m))
  {
  }

  lemma ThreeSteps(h: Host, p: Program, m: Machine)
    ensures Steps(h, p, m, 3) == Step(h, p, Step(h, p, Step(h, p, m)))
  {
    StepsCompose(h, p, m, 1, 2);
    TwoSteps(h, p, Step(h, p, m));
  }

  lemma {:induction false} StoppedStays(h: Host, p: Program, m: Machine, n: nat)
    requires !m.Running?
    ensures Steps(h, p, m, n) == m
    decreases n
  {
    if n > 0 {
      StoppedStays(h, p, m, n - 1);
    }
  }

  /** Once stopped, later is the same. */
  lemma StoppedAt(h: Host, p: Program, m: Machine, a: nat, b: nat)
    requires a <= b && !Steps(h, p, m, a).Running?
    ensures Steps(h, p, m, b) == Steps(h, p, m, a)
  {
    StepsCompose(h, p, m, a, b - a);
    StoppedStays(h, p, Steps(h, p, m, a), b - a);
  }
}
