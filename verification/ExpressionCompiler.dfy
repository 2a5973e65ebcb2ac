/** A function under compilation as the object that it is in compiler.rs: its operations and constants grow,
    its register allocator changes in place, and jumps are patched when their targets are reached. This is
    the part for expressions, proved against the functions in `Codegen`. A result of `None` is a compile error. */
module ExpressionCompilers {
  import opened Values
  import opened Ast
  import opened Codegen
  import opened ExprCorrect
  import A = AllocatorSpec
  import R = RegisterAllocation
  import M = Machine

  datatype Sourced = Sourced(code: seq<M.Operation>, source: nat, register: nat, state: Codegen.State)

  /** An operand in a register, and then the destination. */
  ghost function SourceSpec(d: Desc, dest: Destination, s: Codegen.State): Option<Sourced> {
    var o := AnyRegister(d, s);
    if o.None? then None
    else
      var n := NewDestination(FreeTemp(o.value.state, o.value.temp), dest);
      if n.None? then None else Some(Sourced(o.value.code, o.value.rc.r, n.value.0, n.value.1))
  }

  lemma NewDestinationUsed(s: Codegen.State, dest: Destination)
    requires DestinationOk(s, dest)
    ensures NewDestination(s, dest).Some? ==>
              var (r, s') := NewDestination(s, dest).value;
              r in s'.alloc.used && s.alloc.used <= s'.alloc.used
  {
    if NewDestination(s, dest).Some? {
      NewDestinationPlaced(s, dest);
    }
  }

  /** The specification of `and` and `or` in the steps that the compiler takes. */
  lemma ShortCircuitSpec(left: Desc, op: ShortCircuitOp, right: Desc, dest: Destination, s: Codegen.State)
    ensures var whole, p := Discharge(ShortCircuitDesc(left, op, right), dest, s), SourceSpec(left, dest, s);
            match p
            case None => whole == None
            case Some(q) =>
              var r := Discharge(right, ToRegister(q.register), q.state);
              if r.None? || |r.value.code| > MAX_I16 then whole == None
              else
                whole.Some? && whole.value.reg == q.register && whole.value.state == r.value.state
                && forall before :: before + whole.value.code
                     == before + q.code
                        + [if q.source == q.register then M.Test(q.source, op.And?) else M.TestSet(q.register, q.source, op.And?)]
                        + [NoClose(|r.value.code|)] + r.value.code
  {
    hide AnyRegister, NewDestination, FreeTemp;
    var p := SourceSpec(left, dest, s);
    if p.Some? {
      var q := p.value;
      var r := Discharge(right, ToRegister(q.register), q.state);
      if r.Some? && |r.value.code| <= MAX_I16 {
        var test := if q.source == q.register then M.Test(q.source, op.And?) else M.TestSet(q.register, q.source, op.And?);
        assert ShortCircuitTest(op, q.source, q.register, |r.value.code|) == [test] + [NoClose(|r.value.code|)];
        var whole := Discharge(ShortCircuitDesc(left, op, right), dest, s);
        assert whole.Some? && whole.value.code == q.code + ([test] + [NoClose(|r.value.code|)]) + r.value.code;
        hide Discharge, SourceSpec;
        forall before ensures before + whole.value.code == before + q.code + [test] + [NoClose(|r.value.code|)] + r.value.code {
        }
      }
    }
  }

  class ExpressionCompiler {
    const allocator: R.RegisterAllocator
    var operations: seq<M.Operation>
    var constants: seq<Value>

    ghost predicate Valid()
      reads this, allocator, allocator.registers
    {
      allocator.Valid()
    }

    ghost function State(): Codegen.State
      reads this, allocator
    {
      Codegen.State(allocator.State(), constants)
    }

    constructor ()
      ensures Valid() && fresh(allocator) && fresh(allocator.registers)
      ensures operations == [] && State() == Codegen.State(A.Alloc({}, 0), [])
    {
      allocator := new R.RegisterAllocator();
      operations, constants := [], [];
    }

    lemma ValidIsOk()
      requires Valid()
      ensures A.Ok(State().alloc)
    {
    }

    method Emit(code: seq<M.Operation>)
      modifies this`operations
      ensures operations == old(operations) + code
    {
      operations := operations + code;
    }

    // Registers and constants.

    /** Pushes registers. A block that would end at register 256 is refused here, where the source
        breaks the allocator. */
    method Push(count: nat) returns (r: Option<nat>)
      requires Valid()
      modifies allocator, allocator.registers
      ensures Valid()
      ensures match A.Push(old(State()).alloc, count)
              case Some(p) => r == Some(p.0) && State() == Codegen.State(p.1, constants)
              case None => r == None && State() == old(State())
    {
      if count > 0 && allocator.stackTop + count == A.REGISTERS {
        return None;
      }
      r := allocator.Push(count);
    }

    method DestinationRegister(dest: Destination) returns (r: Option<nat>)
      requires Valid()
      modifies allocator, allocator.registers
      ensures Valid()
      ensures match NewDestination(old(State()), dest)
              case Some(p) => r == Some(p.0) && State() == p.1
              case None => r == None
    {
      match dest {
        case ToRegister(register) => r := Some(register);
        case AllocateNew => r := allocator.Allocate();
        case PushNew => r := Push(1);
      }
    }

    method FreeTemporary(temp: Option<nat>)
      requires Valid() && (temp.Some? ==> temp.value in allocator.used)
      modifies allocator, allocator.registers
      ensures Valid() && State() == FreeTemp(old(State()), temp)
    {
      if temp.Some? {
        allocator.Free(temp.value);
      }
    }

    method ConstantIndex(v: Value) returns (index: Option<nat>)
      modifies this`constants
      ensures match GetConstant(old(constants), v)
              case Some(p) => index == Some(p.0) && constants == p.1
              case None => index == None
    {
      var i := IndexOf(constants, v);
      if i < |constants| {
        return Some(i);
      }
      if i >= MAX_CONSTANTS {
        return None;
      }
      constants := constants + [v];
      return Some(i);
    }

    // Expressions.

    /** The code, register and state of a method are those of the specification. */
    ghost predicate Gave(r: Option<nat>, before: seq<M.Operation>, spec: Option<Emitted>)
      reads this, allocator
    {
      match spec
      case Some(e) => r == Some(e.reg) && operations == before + e.code && State() == e.state
      case None => r == None
    }

    ghost predicate GaveOperand(r: Option<M.RC>, temp: Option<nat>, before: seq<M.Operation>, spec: Option<Operand>)
      reads this, allocator
    {
      match spec
      case Some(o) => r == Some(o.rc) && temp == o.temp && operations == before + o.code && State() == o.state
      case None => r == None
    }

    method ConstDischarge(v: Value, dest: Destination) returns (r: Option<nat>)
      requires Valid()
      modifies this`operations, this`constants, allocator, allocator.registers
      ensures Valid() && Gave(r, old(operations), DischargeConst(v, dest, old(State())))
    {
      r := DestinationRegister(dest);
      if r.None? {
        return;
      }
      match v {
        case Nil => Emit([M.LoadNil(r.value, 1)]);
        case Boolean(b) => Emit([M.LoadBool(r.value, b, false)]);
        case _ =>
          var c := ConstantIndex(v);
          if c.None? {
            return None;
          }
          Emit([M.LoadConstant(r.value, c.value)]);
      }
    }

    /** A constant used as a key: in place if its index fits eight bits. */
    method ConstantKeyOperand(name: Name) returns (r: Option<M.RC>, temp: Option<nat>)
      requires Valid()
      modifies this`operations, this`constants, allocator, allocator.registers
      ensures Valid() && GaveOperand(r, temp, old(operations), ConstantKey(name, old(State())))
    {
      temp := None;
      var c := ConstantIndex(String(name));
      if c.None? {
        return None, None;
      }
      if c.value < A.REGISTERS {
        assert operations == operations + [];
        return Some(M.Constant(c.value)), None;
      }
      var e := ConstDischarge(String(name), AllocateNew);
      if e.None? {
        return None, None;
      }
      r, temp := Some(M.Register(e.value)), e;
    }

    method ExprAnyRegister(d: Desc) returns (r: Option<M.RC>, temp: Option<nat>)
      requires Valid() && ReadsOnly(d, allocator.used)
      modifies this`operations, this`constants, allocator, allocator.registers
      ensures Valid() && GaveOperand(r, temp, old(operations), AnyRegister(d, old(State())))
      decreases d, 2
    {
      if d.Local? {
        assert operations == operations + [];
        return Some(M.Register(d.r)), None;
      }
      ValidIsOk();
      var e := ExprDischarge(d, AllocateNew);
      if e.None? {
        return None, None;
      }
      r, temp := Some(M.Register(e.value)), e;
    }

    method ExprAnyRegisterOrConstant(d: Desc) returns (r: Option<M.RC>, temp: Option<nat>)
      requires Valid() && ReadsOnly(d, allocator.used)
      modifies this`operations, this`constants, allocator, allocator.registers
      ensures Valid() && GaveOperand(r, temp, old(operations), AnyOperand(d, old(State())))
      decreases d, 3
    {
      if d.Const? {
        var c := ConstantIndex(d.v);
        if c.None? {
          return None, None;
        }
        if c.value < A.REGISTERS {
          assert operations == operations + [];
          return Some(M.Constant(c.value)), None;
        }
      }
      r, temp := ExprAnyRegister(d);
    }

    /** Both operands are evaluated before either temporary is freed. */
    method ExprOperands(d: Desc) returns (r: Option<(M.RC, M.RC)>)
      requires d.SimpleDesc? || d.ComparisonDesc?
      requires Valid() && ReadsOnly(d, allocator.used)
      modifies this`operations, this`constants, allocator, allocator.registers
      ensures Valid()
      ensures match Operands(d, old(State()))
              case Some(o) => r == Some((o.left, o.right)) && operations == old(operations) + o.code && State() == o.state
              case None => r == None
      decreases d, 0
    {
      hide AnyRegister, Discharge, A.IsTop, A.IsFirstFree;
      ValidIsOk();
      ghost var s := State();
      var left, leftTemp := ExprAnyRegisterOrConstant(d.left);
      if left.None? {
        return None;
      }
      ghost var l := AnyOperand(d.left, s).value;
      AnyOperandOk(d.left, s);
      ReadsMore(d.right, s.alloc.used, l.state.alloc.used);
      var right, rightTemp := ExprAnyRegisterOrConstant(d.right);
      if right.None? {
        return None;
      }
      AnyOperandOk(d.right, l.state);
      FreeTemporary(leftTemp);
      FreeTemporary(rightTemp);
      r := Some((left.value, right.value));
    }

    /** `expr_discharge`: leaves the value of an expression in the register that it returns. */
    method ExprDischarge(d: Desc, dest: Destination) returns (r: Option<nat>)
      requires Valid() && DestinationOk(State(), dest) && ReadsOnly(d, allocator.used)
      modifies this`operations, this`constants, allocator, allocator.registers
      ensures Valid() && Gave(r, old(operations), Discharge(d, dest, old(State())))
      decreases d, 1
    {
      match d {
        case Local(source) =>
          r := DestinationRegister(dest);
          if r.Some? {
            Emit([M.Move(r.value, source)]);
          }
        case Const(v) => r := ConstDischarge(v, dest);
        case Global(name) => r := GlobalDischarge(name, dest);
        case UnaryDesc(op, operand) => r := UnaryDischarge(op, operand, dest);
        case SimpleDesc(_, op, _) =>
          var o := ExprOperands(d);
          if o.None? {
            return None;
          }
          r := DestinationRegister(dest);
          if r.Some? {
            Emit([M.Arithmetic(op, r.value, o.value.0, o.value.1)]);
          }
        case ComparisonDesc(_, op, _) =>
          var o := ExprOperands(d);
          if o.None? {
            return None;
          }
          r := DestinationRegister(dest);
          if r.Some? {
            Emit(ComparisonTail(op, o.value.0, o.value.1, r.value));
          }
        case ShortCircuitDesc(left, op, right) => r := ShortCircuitDischarge(left, op, right, dest);
      }
    }

    method GlobalDischarge(name: Name, dest: Destination) returns (r: Option<nat>)
      requires Valid() && DestinationOk(State(), dest)
      modifies this`operations, this`constants, allocator, allocator.registers
      ensures Valid() && Gave(r, old(operations), DischargeGlobal(name, dest, old(State())))
    {
      hide A.IsTop, A.IsFirstFree, ConstantKey;
      ghost var s := State();
      var key, temp := ConstantKeyOperand(name);
      if key.None? {
        return None;
      }
      ConstantKeyOk(name, s);
      FreeTemporary(temp);
      r := DestinationRegister(dest);
      if r.Some? {
        Emit([M.GetUpTable(r.value, 0, key.value)]);
      }
    }

    /** An operand in a register, whose temporary is freed before the destination is allocated. */
    method SourceAndDestination(d: Desc, dest: Destination) returns (r: Option<(nat, nat)>)
      requires Valid() && DestinationOk(State(), dest) && ReadsOnly(d, allocator.used)
      modifies this`operations, this`constants, allocator, allocator.registers
      ensures Valid()
      ensures match SourceSpec(d, dest, old(State()))
              case Some(p) =>
                r == Some((p.source, p.register)) && operations == old(operations) + p.code && State() == p.state
                && p.register in allocator.used && old(allocator.used) <= allocator.used
              case None => r == None
      decreases d, 4
    {
      hide Discharge, A.IsTop, A.IsFirstFree;
      ghost var s := State();
      var source, temp := ExprAnyRegister(d);
      if source.None? {
        return None;
      }
      AnyRegisterOk(d, s);
      FreeTempOk(s, d, AnyRegister(d, s).value);
      FreeTemporary(temp);
      NewDestinationUsed(State(), dest);
      var register := DestinationRegister(dest);
      r := if register.Some? then Some((source.value.r, register.value)) else None;
    }

    method UnaryDischarge(op: UnaryOp, operand: Desc, dest: Destination) returns (r: Option<nat>)
      requires Valid() && DestinationOk(State(), dest) && ReadsOnly(operand, allocator.used)
      modifies this`operations, this`constants, allocator, allocator.registers
      ensures Valid() && Gave(r, old(operations), Discharge(UnaryDesc(op, operand), dest, old(State())))
      decreases operand, 5
    {
      hide AnyRegister;
      var p := SourceAndDestination(operand, dest);
      if p.None? {
        return None;
      }
      Emit([M.UnaryOperation(op, p.value.1, p.value.0)]);
      r := Some(p.value.1);
    }

    /** Tests the left operand, and jumps over the code of the right one; the jump is patched behind it. */
    method ShortCircuitDischarge(left: Desc, op: ShortCircuitOp, right: Desc, dest: Destination) returns (r: Option<nat>)
      requires Valid() && DestinationOk(State(), dest) && ReadsOnly(left, allocator.used) && ReadsOnly(right, allocator.used)
      modifies this`operations, this`constants, allocator, allocator.registers
      ensures Valid() && Gave(r, old(operations), Discharge(ShortCircuitDesc(left, op, right), dest, old(State())))
      decreases ShortCircuitDesc(left, op, right), 0
    {
      ShortCircuitSpec(left, op, right, dest, State());
      hide Discharge, SourceSpec, A.IsTop, A.IsFirstFree;
      ghost var before, p := operations, SourceSpec(left, dest, State());
      var found := SourceAndDestination(left, dest);
      if found.None? {
        return None;
      }
      var source, register := found.value.0, found.value.1;
      ReadsMore(right, old(allocator.used), allocator.used);
      Emit([if source == register then M.Test(source, op.And?) else M.TestSet(register, source, op.And?)]);
      var ok := SkippedDischarge(right, register);
      if !ok {
        return None;
      }
      r := Some(register);
    }

    /** A jump over the code of an operand: emitted as a placeholder, and patched when its length is known. */
    method SkippedDischarge(d: Desc, register: nat) returns (ok: bool)
      requires Valid() && register in allocator.used && ReadsOnly(d, allocator.used)
      modifies this`operations, this`constants, allocator, allocator.registers
      ensures Valid()
      ensures var r := Discharge(d, ToRegister(register), old(State()));
              if r.None? || |r.value.code| > MAX_I16 then !ok
              else ok && operations == old(operations) + [NoClose(|r.value.code|)] + r.value.code && State() == r.value.state
      decreases d, 2
    {
      ValidIsOk();
      var jump := |operations|;
      Emit([NoClose(0)]);
      var end := ExprDischarge(d, ToRegister(register));
      if end.None? {
        return false;
      }
      var skip := |operations| - (jump + 1);
      if skip > MAX_I16 {
        return false;
      }
      operations := operations[jump := NoClose(skip)];
      return true;
    }
  }
}
