/** What programs mean, independently of how they are compiled: section 3.3 of the Lua 5.4 Reference
    Manual for the statements of `Ast`, with lexically scoped environments instead of registers. */
module Semantics {
  import opened Values
  import opened Ast
  import opened Machine

  datatype Binding = Binding(name: Name, value: Value)

  /** The variables in scope, the innermost declaration last. */
  type Env = seq<Binding>

  function Lookup(env: Env, g: Globals, name: Name): Value {
    if env == [] then GetGlobal(g, name)
    else if env[|env| - 1].name == name then env[|env| - 1].value
    else Lookup(env[..|env| - 1], g, name)
  }

  function Assign(env: Env, g: Globals, name: Name, v: Value): (r: (Env, Globals))
    ensures |r.0| == |env|
  {
    if env == [] then (env, SetGlobal(g, name, v))
    else if env[|env| - 1].name == name then (env[|env| - 1 := Binding(name, v)], g)
    else
      var (rest, g') := Assign(env[..|env| - 1], g, name, v);
      (rest + [env[|env| - 1]], g')
  }

  // Expressions; `None` is a run-time error.

  function Eval(h: Host, env: Env, g: Globals, e: Expression): Option<Value>
    decreases e, 1
  {
    EvalTail(h, env, g, EvalHead(h, env, g, e.head), e.tail)
  }

  function EvalHead(h: Host, env: Env, g: Globals, head: HeadExpression): Option<Value>
    decreases head, 1
  {
    match head
    case SimpleHead(simple) => EvalSimple(h, env, g, simple)
    case UnaryHead(op, operand) =>
      var v := Eval(h, env, g, operand);
      if v.None? then None else Unary(h, op, v.value)
  }

  function EvalSimple(h: Host, env: Env, g: Globals, s: SimpleExpression): Option<Value>
    decreases s, 1
  {
    match s
    case FloatLit(f) => Some(Number(f))
    case IntegerLit(i) => Some(Integer(i))
    case StringLit(t) => Some(String(t))
    case NilLit => Some(Nil)
    case TrueLit => Some(Boolean(true))
    case FalseLit => Some(Boolean(false))
    case VarArgs => None
    case Suffixed(primary, suffixes) =>
      if suffixes != [] then None
      else match primary
        case Grouped(inner) => Eval(h, env, g, inner)
        case Named(name) => Some(Lookup(env, g, name))
  }

  function EvalTail(h: Host, env: Env, g: Globals, left: Option<Value>, tail: seq<TailPart>): Option<Value>
    decreases tail, 0
  {
    if tail == [] then left else EvalTail(h, env, g, EvalPart(h, env, g, left, tail[0]), tail[1..])
  }

  function EvalPart(h: Host, env: Env, g: Globals, left: Option<Value>, part: TailPart): Option<Value>
    decreases part, 0
  {
    EvalBinary(h, part.op, left, Eval(h, env, g, part.right))
  }

  /** `and` and `or` do not look at their right operand when the left one decides. */
  function EvalBinary(h: Host, op: BinaryOperator, left: Option<Value>, right: Option<Value>): Option<Value> {
    match op
    case ShortCircuit(op) => if left.None? || ToBool(left.value) != op.And? then left else right
    case Simple(op) => if left.None? || right.None? then None else Binary(h, op, left.value, right.value)
    case Comparison(op) =>
      if left.None? || right.None? || Compare(h, op, left.value, right.value).None? then None
      else Some(Boolean(Compare(h, op, left.value, right.value).value))
    case Concat => None
  }

  function EvalAll(h: Host, env: Env, g: Globals, es: seq<Expression>): Option<seq<Value>> {
    if es == [] then Some([])
    else
      var v, vs := Eval(h, env, g, es[0]), EvalAll(h, env, g, es[1..]);
      if v.None? || vs.None? then None else Some([v.value] + vs.value)
  }

  // Statements.

  /** `Timeout` is a loop that has used up its fuel. */
  datatype Outcome =
    | Normal(env: Env, g: Globals)
    | Broke(env: Env, g: Globals)
    | Finished(values: seq<Value>, g: Globals)
    | Error(g: Globals)
    | Timeout

  /** Leaving a scope forgets the variables declared in it. */
  function Leave(o: Outcome, depth: nat): Outcome {
    match o
    case Normal(env, g) => if depth <= |env| then Normal(env[..depth], g) else o
    case Broke(env, g) => if depth <= |env| then Broke(env[..depth], g) else o
    case _ => o
  }

  function Declare(names: seq<Name>, first: Value): Env {
    seq(|names|, i requires 0 <= i < |names| => Binding(names[i], if i == 0 then first else Nil))
  }

  function ExecBlock(h: Host, fuel: nat, b: Block, env: Env, g: Globals): Outcome
    decreases fuel, b, 1
  {
    Leave(ExecOpenBlock(h, fuel, b, env, g), |env|)
  }

  /** A block whose variables stay in scope behind it. */
  function ExecOpenBlock(h: Host, fuel: nat, b: Block, env: Env, g: Globals): Outcome
    decreases fuel, b, 0
  {
    var o := ExecStatements(h, fuel, b.statements, env, g);
    if o.Normal? && b.ret.Some? then
      var vs := EvalAll(h, o.env, o.g, b.ret.value);
      if vs.None? then Error(o.g) else Finished(vs.value, o.g)
    else o
  }

  function ExecStatements(h: Host, fuel: nat, ss: seq<Statement>, env: Env, g: Globals): Outcome
    decreases fuel, ss, 0
  {
    if ss == [] then Normal(env, g)
    else
      var o := ExecStatement(h, fuel, ss[0], env, g);
      if o.Normal? then ExecStatements(h, fuel, ss[1..], o.env, o.g) else o
  }

  function ExecStatement(h: Host, fuel: nat, s: Statement, env: Env, g: Globals): Outcome
    decreases fuel, s, 2
  {
    match s
    case LocalStatement(names, value) =>
      var v := if value.None? then Some(Nil) else Eval(h, env, g, value.value);
      if v.None? then Error(g) else Normal(env + Declare(names, v.value), g)
    case Assignment(target, e) =>
      var v := Eval(h, env, g, e);
      if v.None? then Error(g) else var (env', g') := Assign(env, g, target, v.value); Normal(env', g')
    case Do(b) => ExecBlock(h, fuel, b, env, g)
    case If(chain) => ExecChain(h, fuel, chain, env, g)
    case While(condition, body) =>
      if fuel == 0 then Timeout else
      var c := Eval(h, env, g, condition);
      if c.None? then Error(g)
      else if !ToBool(c.value) then Normal(env, g)
      else
        var o := ExecBlock(h, fuel, body, env, g);
        if o.Normal? then ExecStatement(h, fuel - 1, s, o.env, o.g)
        else if o.Broke? then Normal(o.env, o.g)
        else o
    case Repeat(body, until) =>
      if fuel == 0 then Timeout else
      var o := ExecOpenBlock(h, fuel, body, env, g);
      if o.Normal? then
        var c := Eval(h, o.env, o.g, until);
        if c.None? then Error(o.g)
        else if ToBool(c.value) then Leave(o, |env|)
        else var o' := Leave(o, |env|); ExecStatement(h, fuel - 1, s, o'.env, o'.g)
      else if o.Broke? then Leave(Normal(o.env, o.g), |env|)
      else o
    case NumericFor(name, initial, limit, step, body) =>
      var i, l := Eval(h, env, g, initial), Eval(h, env, g, limit);
      var st := if step.None? then Some(Integer(1)) else Eval(h, env, g, step.value);
      if i.None? || l.None? || st.None? || Binary(h, Sub, i.value, st.value).None? then Error(g)
      else ExecFor(h, fuel, name, Binary(h, Sub, i.value, st.value).value, l.value, st.value, body, env, g)
    case Break => Broke(env, g)
  }

  /** The remaining iterations of a numeric `for` whose last index was `index`. */
  function ExecFor(h: Host, fuel: nat, name: Name, index: Value, limit: Value, step: Value, body: Block, env: Env, g: Globals): Outcome
    decreases fuel, body, 2
  {
    if fuel == 0 then Timeout else
    var next := ForNext(h, index, limit, step);
    if next.None? then Error(g)
    else if PastEnd(h, next.value, limit, step) then Normal(env, g)
    else
      var o := Leave(ExecBlock(h, fuel, body, env + [Binding(name, next.value)], g), |env|);
      if o.Normal? then ExecFor(h, fuel - 1, name, next.value, limit, step, body, o.env, o.g)
      else if o.Broke? then Normal(o.env, o.g)
      else o
  }

  function ExecChain(h: Host, fuel: nat, chain: IfChain, env: Env, g: Globals): Outcome
    decreases fuel, chain, 2
  {
    match chain
    case EndIf => Normal(env, g)
    case Else(block) => ExecBlock(h, fuel, block, env, g)
    case Arm(condition, block, rest) =>
      var c := Eval(h, env, g, condition);
      if c.None? then Error(g)
      else if ToBool(c.value) then ExecBlock(h, fuel, block, env, g)
      else ExecChain(h, fuel, rest, env, g)
  }
}
