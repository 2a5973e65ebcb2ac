/** The compiler's correctness, stated for whole expressions and whole chunks. */
module CompilerTheorems {
  import opened Values
  import opened Ast
  import opened AllocatorSpec
  import opened Codegen
  import opened StatementCodegen
  import opened Machine
  import opened Semantics
  import opened ExprCorrect
  import opened ExprRuns
  import opened DescribeCorrect
  import opened StatementShape
  import opened StatementPieces
  import opened StatementCorrect

  /** Compiling and running an expression, with any destination, computes what the expression means in
      the scope it stands in, and disturbs no other allocated register. */
  lemma ExpressionCorrect(h: Host, p: Program, e: Expression, dest: Destination, locals: seq<LocalVar>, env: Env, s: State, m: Machine)
    requires LocalsOk(locals, s) && DestinationOk(s, dest)
    requires Describe(h, locals, e).Some? && Discharge(Describe(h, locals, e).value, dest, s).Some?
    requires var code := Discharge(Describe(h, locals, e).value, dest, s).value; Fits(p, m, code.code, code.state)
    requires EnvMatches(locals, env, m.regs)
    ensures var code := Discharge(Describe(h, locals, e).value, dest, s).value;
            Placed(s, dest, code.reg, code.state)
            && exists n :: Yields(h, p, m, n, Eval(h, env, m.globals, e), |code.code|, s.alloc.used, code.reg)
  {
    hide Discharge, Steps, IsTop;
    DescribeMeans(h, e, locals, env, s.alloc.used, m.regs, m.globals);
    var d := Describe(h, locals, e).value;
    DischargePlaced(d, dest, s);
    var n := DischargeRuns(h, p, d, dest, s, m);
  }

  // Chunks.

  function Start(size: nat, g: Globals): Machine {
    Running(0, seq(size, _ => Nil), g)
  }

  /** How a chunk ends; running to the end of its block returns no value. */
  function Ending(o: Outcome): Option<Machine> {
    match o
    case Normal(_, g) => Some(Returned([], g))
    case Finished(vs, g) => Some(Returned(vs, g))
    case Error(g) => Some(Failed(g))
    case Broke(_, _) => None
    case Timeout => None
  }

  ghost predicate HasBreak(items: seq<Item>) {
    Goto(BreakLabel) in items
  }

  lemma HasBreakPatchEnd(items: seq<Item>, target: nat)
    requires HasBreak(items)
    ensures HasBreak(Patch(items, EndLabel, target))
  {
    var i :| 0 <= i < |items| && items[i] == Goto(BreakLabel);
    assert Patch(items, EndLabel, target)[i] == Goto(BreakLabel);
  }

  // A statement can end in a `break` only if its code has an open jump for it.

  lemma {:induction false} StatementsBreak(h: Host, fuel: nat, ss: seq<Statement>, env: Env, g: Globals, locals: seq<LocalVar>, s: State)
    requires StatementsCode(h, ss, locals, s).Some? && ExecStatements(h, fuel, ss, env, g).Broke?
    ensures HasBreak(StatementsCode(h, ss, locals, s).value.items)
    decreases ss, 0
  {
    hide StatementCode, ExecStatement;
    var first := StatementCode(h, ss[0], locals, s).value;
    var o := ExecStatement(h, fuel, ss[0], env, g);
    if o.Broke? {
      StatementBreak(h, fuel, ss[0], env, g, locals, s);
    } else {
      StatementsBreak(h, fuel, ss[1..], o.env, o.g, first.locals, first.state);
    }
  }

  lemma {:induction false} BlockBreak(h: Host, fuel: nat, b: Block, env: Env, g: Globals, locals: seq<LocalVar>, s: State)
    requires BlockCode(h, b, locals, s).Some? && ExecBlock(h, fuel, b, env, g).Broke?
    ensures HasBreak(BlockCode(h, b, locals, s).value.items)
    decreases b, 1
  {
    hide StatementsCode, ExecStatements, ReturnCode;
    StatementsBreak(h, fuel, b.statements, env, g, locals, s);
  }

  lemma {:induction false} StatementBreak(h: Host, fuel: nat, st: Statement, env: Env, g: Globals, locals: seq<LocalVar>, s: State)
    requires StatementCode(h, st, locals, s).Some? && ExecStatement(h, fuel, st, env, g).Broke?
    ensures HasBreak(StatementCode(h, st, locals, s).value.items)
    decreases st, 2
  {
    hide BlockCode, ExecBlock, ChainCode, ExecChain;
    match st
    case Do(b) => BlockBreak(h, fuel, b, env, g, locals, s);
    case If(chain) =>
      ChainBreak(h, fuel, chain, env, g, locals, s);
      var c := ChainCode(h, chain, locals, s).value;
      HasBreakPatchEnd(c.items, |c.items|);
    case While(_, _) => LoopsDoNotBreak(h, fuel, st, env, g);
    case Repeat(_, _) => LoopsDoNotBreak(h, fuel, st, env, g);
    case NumericFor(_, _, _, _, _) => LoopsDoNotBreak(h, fuel, st, env, g);
    case _ =>
  }

  lemma {:induction false} ChainBreak(h: Host, fuel: nat, chain: IfChain, env: Env, g: Globals, locals: seq<LocalVar>, s: State)
    requires ChainCode(h, chain, locals, s).Some? && ExecChain(h, fuel, chain, env, g).Broke?
    ensures HasBreak(ChainCode(h, chain, locals, s).value.items)
    decreases chain, 2
  {
    hide BlockCode, ExecBlock, Condition, Eval;
    match chain
    case EndIf =>
    case Else(block) => BlockBreak(h, fuel, block, env, g, locals, s);
    case Arm(condition, block, rest) =>
      var t := Condition(h, locals, condition, s).value;
      var b := BlockCode(h, block, locals, t.state).value;
      if ToBool(Eval(h, env, g, condition).value) {
        BlockBreak(h, fuel, block, env, g, locals, t.state);
      } else {
        ChainBreak(h, fuel, rest, env, g, locals, b.state);
      }
  }

  lemma {:induction false} LoopsDoNotBreak(h: Host, fuel: nat, st: Statement, env: Env, g: Globals)
    requires st.While? || st.Repeat? || st.NumericFor?
    ensures !ExecStatement(h, fuel, st, env, g).Broke?
    decreases fuel
  {
    hide ExecBlock, ExecOpenBlock, Eval, ExecFor;
    if st.NumericFor? {
      forall index: Value, limit: Value, step: Value
        ensures !ExecFor(h, fuel, st.name, index, limit, step, st.fbody, env, g).Broke?
      {
        ForDoesNotBreak(h, fuel, st.name, index, limit, step, st.fbody, env, g);
      }
    } else if fuel > 0 {
      var f: nat := fuel - 1;
      forall env': Env, g': Globals
        ensures !ExecStatement(h, f, st, env', g').Broke?
      {
        LoopsDoNotBreak(h, f, st, env', g');
      }
    }
  }

  lemma {:induction false} ForDoesNotBreak(h: Host, fuel: nat, name: Name, index: Value, limit: Value, step: Value, body: Block, env: Env, g: Globals)
    ensures !ExecFor(h, fuel, name, index, limit, step, body, env, g).Broke?
    decreases fuel
  {
    hide ExecBlock, ForNext, PastEnd;
    if fuel > 0 && ForNext(h, index, limit, step).Some? {
      var next := ForNext(h, index, limit, step).value;
      var o := Leave(ExecBlock(h, fuel, body, env + [Binding(name, next)], g), |env|);
      if o.Normal? {
        ForDoesNotBreak(h, fuel - 1, name, next, limit, step, body, o.env, o.g);
      }
    }
  }

  lemma StartFits(h: Host, b: Block, g: Globals)
    requires ChunkCode(h, b).Some?
    ensures var (p, size) := ChunkCode(h, b).value;
            var c := BlockCode(h, b, [], State(Alloc({}, 0), [])).value;
            LocalsOk([], State(Alloc({}, 0), [])) && EnvMatches([], [], Start(size, g).regs)
            && Holds(p, Start(size, g), c.state)
            && (forall brk, end :: ItemsAt(p, 0, c.items, brk, end))
            && !HasBreak(c.items)
            && |p.code| == |c.items| + 1 && p.code[|c.items|] == Return(0, 0)
  {
    hide BlockCode;
    TopIs({}, 0);
    BlockCodeOk(h, b, [], State(Alloc({}, 0), []));
  }

  /** A compiled function has freed all its registers, so that the assertion at its end holds. */
  lemma NoRegisterLeaks(h: Host, b: Block)
    requires ChunkCode(h, b).Some?
    ensures var c := BlockCode(h, b, [], State(Alloc({}, 0), [])).value;
            c.state.alloc.used == {} && Top(c.state.alloc.used) == 0 && c.state.alloc.size == ChunkCode(h, b).value.1 <= REGISTERS
  {
    hide BlockCode;
    TopIs({}, 0);
    BlockCodeOk(h, b, [], State(Alloc({}, 0), []));
  }

  /** A chunk's code does what the chunk means: it returns or fails when the chunk does, with the same
      values and globals, and it is still running while the chunk is. */
  lemma ChunkSimulated(h: Host, b: Block, g: Globals, fuel: nat) returns (n: nat)
    requires ChunkCode(h, b).Some?
    ensures var (p, size) := ChunkCode(h, b).value;
            var o := ExecBlock(h, fuel, b, [], g);
            var m' := Steps(h, p, Start(size, g), n);
            if Ending(o).Some? then m' == Ending(o).value else o.Timeout? && m'.Running? && n >= fuel
  {
    hide BlockCode, ExecBlock, Steps, ItemsAt, IsTop;
    var (p, size) := ChunkCode(h, b).value;
    var s := State(Alloc({}, 0), []);
    StartFits(h, b, g);
    var m := Start(size, g);
    var c := BlockCode(h, b, [], s).value;
    var o := ExecBlock(h, fuel, b, [], g);
    assert ItemsAt(p, 0, c.items, 0, 0);
    n := BlockRuns(h, p, fuel, b, [], [], s, m, 0, 0);
    if o.Normal? {
      var m1 := Steps(h, p, m, n);
      StepsCompose(h, p, m, n, 1);
      OneStep(h, p, m1);
      n := n + 1;
    } else if o.Broke? {
      BlockBreak(h, fuel, b, [], g, [], s);
      assert false;
    }
  }

  /** A compiled chunk stops in a state if and only if the chunk's meaning ends that way for some
      amount of fuel: it terminates exactly when the chunk does, with the same result. */
  lemma ChunkCorrect(h: Host, b: Block, g: Globals, end: Machine)
    requires ChunkCode(h, b).Some? && !end.Running?
    ensures var (p, size) := ChunkCode(h, b).value;
            (exists n :: Steps(h, p, Start(size, g), n) == end)
            <==> (exists fuel :: Ending(ExecBlock(h, fuel, b, [], g)) == Some(end))
  {
    hide ChunkCode, ExecBlock, Steps;
    var (p, size) := ChunkCode(h, b).value;
    var m := Start(size, g);
    if fuel: nat :| Ending(ExecBlock(h, fuel, b, [], g)) == Some(end) {
      var n := ChunkSimulated(h, b, g, fuel);
    }
    if n: nat :| Steps(h, p, m, n) == end {
      var k := ChunkSimulated(h, b, g, n + 1);
      if n <= k {
        StoppedAt(h, p, m, n, k);
      } else {
        StoppedAt(h, p, m, k, n);
      }
      assert Ending(ExecBlock(h, n + 1, b, [], g)) == Some(end);
    }
  }

  /** A compiled chunk never panics: no register, constant or operation is out of range. */
  lemma ChunkNeverPanics(h: Host, b: Block, g: Globals, n: nat)
    requires ChunkCode(h, b).Some?
    ensures var (p, size) := ChunkCode(h, b).value; Steps(h, p, Start(size, g), n) != Panicked
  {
    hide ChunkCode, ExecBlock, Steps;
    ChunkCorrect(h, b, g, Panicked);
  }

  // Numeric `for` over integers.

  ghost predicate Past(i: int, limit: int, step: int) {
    if step < 0 then i < limit else limit < i
  }

  /** `initial`, `initial + step`, and so on, as long as they are not past the limit. */
  ghost function ForValues(i: int, limit: int, step: int): (vs: seq<int>)
    requires step != 0
    ensures forall k :: 0 <= k < |vs| ==> vs[k] == i + k * step && !Past(vs[k], limit, step)
    ensures Past(i + |vs| * step, limit, step)
    decreases if step < 0 then i - limit + 1 else limit - i + 1
  {
    if Past(i, limit, step) then []
    else
      var rest := ForValues(i + step, limit, step);
      assert forall k :: 0 <= k < |rest| ==> rest[k] == i + (k + 1) * step;
      assert i + step + |rest| * step == i + (1 + |rest|) * step;
      [i] + rest
  }

  /** The body, run once for each of the values. */
  ghost function ExecEach(h: Host, fuel: nat, name: Name, vs: seq<int>, body: Block, env: Env, g: Globals): Outcome
    decreases |vs|
  {
    if fuel == 0 then Timeout
    else if vs == [] then Normal(env, g)
    else
      var o := Leave(ExecBlock(h, fuel, body, env + [Binding(name, Integer(vs[0]))], g), |env|);
      if o.Normal? then ExecEach(h, fuel - 1, name, vs[1..], body, o.env, o.g)
      else if o.Broke? then Normal(o.env, o.g)
      else o
  }

  /** The machine's `for` loop, whose control register starts one step early, runs its body for exactly
      those values, provided the index after the last one does not overflow. */
  lemma {:induction false} IntegerForRunsEach(h: Host, fuel: nat, name: Name, index: int, i: int, limit: int, step: int, body: Block, env: Env, g: Globals)
    requires step != 0 && IsI64(step) && IsI64(limit) && IsI64(i) && Wrap(index + step) == i
    requires IsI64(i + |ForValues(i, limit, step)| * step)
    ensures ExecFor(h, fuel, name, Integer(index), Integer(limit), Integer(step), body, env, g)
            == ExecEach(h, fuel, name, ForValues(i, limit, step), body, env, g)
    decreases fuel
  {
    hide ExecBlock, Wrap;
    var vs := ForValues(i, limit, step);
    if fuel > 0 && vs != [] {
      var o := Leave(ExecBlock(h, fuel, body, env + [Binding(name, Integer(i))], g), |env|);
      assert vs[1..] == ForValues(i + step, limit, step);
      assert i + |vs| * step == i + step + |vs[1..]| * step;
      BetweenFits(i + step, |vs[1..]|, step, limit, i);
      if o.Normal? {
        WrapFits(i + step);
        IntegerForRunsEach(h, fuel - 1, name, i, i + step, limit, step, body, o.env, o.g);
      }
    }
  }

  lemma BetweenFits(i: int, k: nat, step: int, limit: int, before: int)
    requires step != 0 && IsI64(before) && i == before + step && IsI64(i + k * step)
    ensures IsI64(i)
  {
    if step > 0 {
      assert k * step >= 0;
    } else {
      assert k * step <= 0;
    }
  }

  /** The first index is the initial value, whether or not decrementing it wrapped around. */
  lemma ForStartsAtInitial(h: Host, initial: int, step: int)
    requires IsI64(initial)
    ensures Binary(h, Sub, Integer(initial), Integer(step)) == Some(Integer(Wrap(initial - step)))
    ensures Wrap(Wrap(initial - step) + step) == initial
  {
    WrapSubAdd(initial, step);
  }

  /** When the index after the last value does overflow, it wraps around and the loop goes on, although
      section 3.3.5 of the Lua 5.4 Reference Manual says that the loop never wraps around. */
  lemma ForStopsUnlessOverflow(h: Host, last: int, limit: int, step: int)
    requires step != 0 && IsI64(step) && IsI64(limit) && IsI64(last) && !Past(last, limit, step) && Past(last + step, limit, step)
    ensures PastEnd(h, ForNext(h, Integer(last), Integer(limit), Integer(step)).value, Integer(limit), Integer(step))
            <==> IsI64(last + step)
  {
    if last + step > MAX_I64 {
      assert Wrap(last + step) == last + step - 2 * TWO_63;
    } else if last + step < MIN_I64 {
      assert Wrap(last + step) == last + step + 2 * TWO_63;
    }
  }

  /** `for i = math.maxinteger, math.maxinteger` goes on with the least integer. */
  lemma GreatestIntegerLoops(h: Host)
    ensures ForNext(h, Integer(MAX_I64), Integer(MAX_I64), Integer(1)) == Some(Integer(MIN_I64))
    ensures !PastEnd(h, Integer(MIN_I64), Integer(MAX_I64), Integer(1))
  {
    ForStopsUnlessOverflow(h, MAX_I64, MAX_I64, 1);
  }

  lemma EmptyBlock(h: Host, fuel: nat, b: Block, env: Env, g: Globals)
    requires b.statements == [] && b.ret.None?
    ensures ExecBlock(h, fuel, b, env, g) == Normal(env, g)
  {
    assert ExecStatements(h, fuel, b.statements, env, g) == Normal(env, g);
    assert ExecOpenBlock(h, fuel, b, env, g) == Normal(env, g);
    assert env[..|env|] == env;
  }

  /** A step of zero, an error by section 3.3.5, makes a loop that begins at all go on for ever. */
  lemma {:induction false} ZeroStepNeverEnds(h: Host, fuel: nat, name: Name, i: int, limit: int, env: Env, g: Globals)
    requires IsI64(i) && IsI64(limit)
    ensures var o := ExecFor(h, fuel, name, Integer(i), Integer(limit), Integer(0), Block([], None), env, g);
            if i <= limit || fuel == 0 then o.Timeout? else o == Normal(env, g)
    decreases fuel
  {
    WrapFits(i);
    if fuel > 0 && i <= limit {
      var inner := env + [Binding(name, Integer(i))];
      EmptyBlock(h, fuel, Block([], None), inner, g);
      assert inner[..|env|] == env;
      ZeroStepNeverEnds(h, fuel - 1, name, i, limit, env, g);
    }
  }
}
