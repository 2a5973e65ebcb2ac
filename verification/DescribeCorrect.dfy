/** Resolving names and folding constants does not change what an expression means. */
module DescribeCorrect {
  import opened Values
  import opened Ast
  import opened Codegen
  import opened Machine
  import opened Semantics
  import opened ExprCorrect

  /** The registers hold the values of the variables in scope. */
  ghost predicate EnvMatches(locals: seq<LocalVar>, env: Env, regs: seq<Value>) {
    |locals| == |env|
    && forall i :: 0 <= i < |locals| ==>
         locals[i].name == env[i].name && locals[i].reg < |regs| && regs[locals[i].reg] == env[i].value
  }

  ghost predicate LocalsIn(locals: seq<LocalVar>, used: set<nat>) {
    forall i :: 0 <= i < |locals| ==> locals[i].reg in used
  }

  /** Name resolution finds the innermost variable of that name, or the global. */
  lemma {:induction false} FindLocalMeans(locals: seq<LocalVar>, env: Env, used: set<nat>, regs: seq<Value>, g: Globals, name: Name)
    requires EnvMatches(locals, env, regs) && LocalsIn(locals, used)
    ensures match FindLocal(locals, name)
            case Some(r) => r in used && r < |regs| && regs[r] == Lookup(env, g, name)
            case None => Lookup(env, g, name) == GetGlobal(g, name)
    decreases |locals|
  {
    if locals != [] && locals[|locals| - 1].name != name {
      FindLocalMeans(locals[..|locals| - 1], env[..|env| - 1], used, regs, g, name);
    }
  }

  lemma UnaryOfMeans(h: Host, op: UnaryOp, d: Desc, used: set<nat>, regs: seq<Value>, g: Globals)
    requires ReadsOnly(d, used)
    ensures EvalDesc(h, UnaryOf(h, op, d), regs, g) == EvalDesc(h, UnaryDesc(op, d), regs, g)
    ensures ReadsOnly(UnaryOf(h, op, d), used)
  {
  }

  lemma BinaryOfMeans(h: Host, op: BinaryOperator, left: Desc, right: Desc, used: set<nat>, regs: seq<Value>, g: Globals)
    requires !op.Concat? && ReadsOnly(left, used) && ReadsOnly(right, used)
    ensures EvalDesc(h, BinaryOf(h, op, left, right), regs, g)
            == EvalBinary(h, op, EvalDesc(h, left, regs, g), EvalDesc(h, right, regs, g))
    ensures ReadsOnly(BinaryOf(h, op, left, right), used)
  {
  }

  /** The descriptor of an expression means what the expression means. */
  lemma {:induction false} DescribeMeans(h: Host, e: Expression, locals: seq<LocalVar>, env: Env, used: set<nat>, regs: seq<Value>, g: Globals)
    requires EnvMatches(locals, env, regs) && LocalsIn(locals, used) && Describe(h, locals, e).Some?
    ensures var d := Describe(h, locals, e).value;
            EvalDesc(h, d, regs, g) == Eval(h, env, g, e) && ReadsOnly(d, used)
    decreases e, 1
  {
    DescribeHeadMeans(h, e.head, locals, env, used, regs, g);
    var head := DescribeHead(h, locals, e.head).value;
    DescribeTailMeans(h, head, e.tail, locals, env, used, regs, g);
  }

  lemma {:induction false} DescribeHeadMeans(h: Host, head: HeadExpression, locals: seq<LocalVar>, env: Env, used: set<nat>, regs: seq<Value>, g: Globals)
    requires EnvMatches(locals, env, regs) && LocalsIn(locals, used) && DescribeHead(h, locals, head).Some?
    ensures var d := DescribeHead(h, locals, head).value;
            EvalDesc(h, d, regs, g) == EvalHead(h, env, g, head) && ReadsOnly(d, used)
    decreases head, 1
  {
    match head
    case SimpleHead(simple) => DescribeSimpleMeans(h, simple, locals, env, used, regs, g);
    case UnaryHead(op, operand) =>
      DescribeMeans(h, operand, locals, env, used, regs, g);
      UnaryOfMeans(h, op, Describe(h, locals, operand).value, used, regs, g);
  }

  lemma {:induction false} DescribeSimpleMeans(h: Host, s: SimpleExpression, locals: seq<LocalVar>, env: Env, used: set<nat>, regs: seq<Value>, g: Globals)
    requires EnvMatches(locals, env, regs) && LocalsIn(locals, used) && DescribeSimple(h, locals, s).Some?
    ensures var d := DescribeSimple(h, locals, s).value;
            EvalDesc(h, d, regs, g) == EvalSimple(h, env, g, s) && ReadsOnly(d, used)
    decreases s, 1
  {
    if s.Suffixed? {
      match s.primary
      case Grouped(inner) => DescribeMeans(h, inner, locals, env, used, regs, g);
      case Named(name) => FindLocalMeans(locals, env, used, regs, g, name);
    }
  }

  lemma {:induction false} DescribeTailMeans(h: Host, left: Desc, tail: seq<TailPart>, locals: seq<LocalVar>, env: Env, used: set<nat>, regs: seq<Value>, g: Globals)
    requires EnvMatches(locals, env, regs) && LocalsIn(locals, used)
    requires ReadsOnly(left, used) && DescribeTail(h, locals, left, tail).Some?
    ensures var d := DescribeTail(h, locals, left, tail).value;
            EvalDesc(h, d, regs, g) == EvalTail(h, env, g, EvalDesc(h, left, regs, g), tail) && ReadsOnly(d, used)
    decreases tail, 0
  {
    if tail != [] {
      DescribePartMeans(h, left, tail[0], locals, env, used, regs, g);
      DescribeTailMeans(h, DescribePart(h, locals, left, tail[0]).value, tail[1..], locals, env, used, regs, g);
    }
  }

  lemma {:induction false} DescribePartMeans(h: Host, left: Desc, part: TailPart, locals: seq<LocalVar>, env: Env, used: set<nat>, regs: seq<Value>, g: Globals)
    requires EnvMatches(locals, env, regs) && LocalsIn(locals, used)
    requires ReadsOnly(left, used) && DescribePart(h, locals, left, part).Some?
    ensures var d := DescribePart(h, locals, left, part).value;
            EvalDesc(h, d, regs, g) == EvalPart(h, env, g, EvalDesc(h, left, regs, g), part) && ReadsOnly(d, used)
    decreases part, 0
  {
    DescribeMeans(h, part.right, locals, env, used, regs, g);
    BinaryOfMeans(h, part.op, left, Describe(h, locals, part.right).value, used, regs, g);
  }
}
