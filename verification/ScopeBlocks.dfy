/** The list of locals and the list of blocks of a function under compilation stand for nested scopes. */
module ScopeBlocks {
  import opened Values
  import opened Scopes

  /** The parameters of a function and the declarations of its open blocks, from the outermost one on. */
  datatype Nest = Nest(params: seq<Local>, scopes: seq<seq<Local>>)

  function Concat(ss: seq<seq<Local>>): seq<Local> {
    if ss == [] then [] else Concat(ss[..|ss| - 1]) + ss[|ss| - 1]
  }

  function Flatten(n: Nest): seq<Local> {
    n.params + Concat(n.scopes)
  }

  /** The declaration that a name refers to: in the innermost block that has one, the last one. */
  function InScopes(n: Nest, name: string): Option<nat>
    decreases |n.scopes|
  {
    if n.scopes == [] then FindLocal(n.params, name)
    else
      var k := |n.scopes| - 1;
      var r := FindLocal(n.scopes[k], name);
      if r.Some? then r else InScopes(n.(scopes := n.scopes[..k]), name)
  }

  /** Registers are handed out from the bottom up: those of a block begin where the block began, and all are below `top`. */
  ghost predicate Matches(f: Function, n: Nest, top: nat) {
    && f.locals == Flatten(n) && |f.blocks| == |n.scopes|
    && (forall l :: l in n.params ==> l.register < top)
    && (forall b :: 0 <= b < |f.blocks| ==> f.blocks[b].stackBottom <= top)
    && (forall b, c :: 0 <= b < c < |f.blocks| ==> f.blocks[b].stackBottom <= f.blocks[c].stackBottom)
    && (forall b, l :: 0 <= b < |f.blocks| && l in n.scopes[b] ==> f.blocks[b].stackBottom <= l.register < top)
    && (forall b, l :: 0 <= b < |f.blocks| && l in n.params ==> l.register < f.blocks[b].stackBottom)
    && forall b, c, l :: 0 <= b < c < |f.blocks| && l in n.scopes[b] ==> l.register < f.blocks[c].stackBottom
  }

  /** `exit_block` forgets locals from the last one back, as long as their registers belong to the block. */
  function PopLocals(locals: seq<Local>, bottom: nat): seq<Local> {
    if locals == [] || locals[|locals| - 1].register < bottom then locals
    else PopLocals(locals[..|locals| - 1], bottom)
  }

  lemma {:induction false} FindInConcat(a: seq<Local>, b: seq<Local>, name: string)
    ensures FindLocal(a + b, name) == if FindLocal(b, name).Some? then FindLocal(b, name) else FindLocal(a, name)
  {
    if b == [] {
      assert a + b == a;
    } else {
      assert (a + b)[..|a + b| - 1] == a + b[..|b| - 1];
      FindInConcat(a, b[..|b| - 1], name);
    }
  }

  /** Searching the list from the end finds the innermost declaration. */
  lemma {:induction false} FindsInnermostScope(n: Nest, name: string)
    ensures FindLocal(Flatten(n), name) == InScopes(n, name)
    decreases |n.scopes|
  {
    if n.scopes == [] {
      assert Flatten(n) == n.params;
    } else {
      var k := |n.scopes| - 1;
      var outer := n.(scopes := n.scopes[..k]);
      assert Flatten(n) == Flatten(outer) + n.scopes[k];
      FindInConcat(Flatten(outer), n.scopes[k], name);
      FindsInnermostScope(outer, name);
    }
  }

  lemma {:induction false} ConcatHas(ss: seq<seq<Local>>, l: Local) returns (b: nat)
    requires l in Concat(ss)
    ensures b < |ss| && l in ss[b]
  {
    if l in ss[|ss| - 1] {
      b := |ss| - 1;
    } else {
      b := ConcatHas(ss[..|ss| - 1], l);
    }
  }

  // Declaring, entering and leaving.

  /** A local is declared in the current block, in the next register. */
  lemma DeclareMatches(f: Function, n: Nest, top: nat, name: string)
    requires Matches(f, n, top) && n.scopes != []
    ensures var k, l := |n.scopes| - 1, Local(name, top);
            Matches(f.(locals := f.locals + [l]), n.(scopes := n.scopes[k := n.scopes[k] + [l]]), top + 1)
  {
    var k, l := |n.scopes| - 1, Local(name, top);
    var scopes := n.scopes[k := n.scopes[k] + [l]];
    assert scopes[..k] == n.scopes[..k];
    assert f.locals + [l] == n.params + Concat(scopes);
  }

  lemma EnterMatches(f: Function, n: Nest, top: nat)
    requires Matches(f, n, top)
    ensures Matches(f.(blocks := f.blocks + [Block(top, false)]), n.(scopes := n.scopes + [[]]), top)
  {
    var scopes := n.scopes + [[]];
    assert scopes[..|n.scopes|] == n.scopes;
    assert Concat(scopes) == Concat(n.scopes);
  }

  lemma {:induction false} PopsScope(outer: seq<Local>, scope: seq<Local>, bottom: nat)
    requires forall l :: l in outer ==> l.register < bottom
    requires forall l :: l in scope ==> bottom <= l.register
    ensures PopLocals(outer + scope, bottom) == outer
  {
    if scope == [] {
      assert outer + scope == outer;
      if outer != [] {
        assert outer[|outer| - 1] in outer;
      }
    } else {
      assert scope[|scope| - 1] in scope;
      assert (outer + scope)[..|outer + scope| - 1] == outer + scope[..|scope| - 1];
      PopsScope(outer, scope[..|scope| - 1], bottom);
    }
  }

  /** Leaving a block forgets exactly its declarations, and frees its registers. */
  lemma ExitMatches(f: Function, n: Nest, top: nat)
    requires Matches(f, n, top) && n.scopes != []
    ensures var k := |n.scopes| - 1;
            var bottom := f.blocks[k].stackBottom;
            Matches(f.(locals := PopLocals(f.locals, bottom), blocks := f.blocks[..k]), n.(scopes := n.scopes[..k]), bottom)
  {
    var k := |n.scopes| - 1;
    var bottom := f.blocks[k].stackBottom;
    PopsLastScope(f, n, top);
    var g, m := f.(locals := PopLocals(f.locals, bottom), blocks := f.blocks[..k]), n.(scopes := n.scopes[..k]);
    hide Flatten, PopLocals;
    assert Matches(g, m, bottom);
  }

  lemma PopsLastScope(f: Function, n: Nest, top: nat)
    requires Matches(f, n, top) && n.scopes != []
    ensures var k := |n.scopes| - 1;
            PopLocals(f.locals, f.blocks[k].stackBottom) == Flatten(n.(scopes := n.scopes[..k]))
  {
    var k := |n.scopes| - 1;
    var bottom := f.blocks[k].stackBottom;
    var outer := n.params + Concat(n.scopes[..k]);
    forall l | l in outer ensures l.register < bottom {
      if l !in n.params {
        var b := ConcatHas(n.scopes[..k], l);
      }
    }
    assert f.locals == outer + n.scopes[k];
    hide Matches;
    PopsScope(outer, n.scopes[k], bottom);
  }

  // Which block owns a captured variable.

  lemma {:induction false} MarksLast(blocks: seq<Block>, b: nat, register: nat)
    requires b < |blocks| && blocks[b].stackBottom <= register
    requires forall c :: b < c < |blocks| ==> register < blocks[c].stackBottom
    ensures MarkOwner(blocks, register) == blocks[b := blocks[b].(ownsUpvalues := true)]
  {
    var n := |blocks| - 1;
    if b < n {
      MarksLast(blocks[..n], b, register);
    }
  }

  lemma {:induction false} MarksNone(blocks: seq<Block>, register: nat)
    requires forall b :: 0 <= b < |blocks| ==> register < blocks[b].stackBottom
    ensures MarkOwner(blocks, register) == blocks
  {
    if blocks != [] {
      MarksNone(blocks[..|blocks| - 1], register);
    }
  }

  /** Capturing a variable marks the block that declares it, and no other; a parameter has no block. */
  lemma MarksDeclaringBlock(f: Function, n: Nest, top: nat, l: Local)
    requires Matches(f, n, top)
    ensures forall b :: 0 <= b < |n.scopes| && l in n.scopes[b] ==>
              MarkOwner(f.blocks, l.register) == f.blocks[b := f.blocks[b].(ownsUpvalues := true)]
    ensures l in n.params ==> MarkOwner(f.blocks, l.register) == f.blocks
  {
    forall b | 0 <= b < |n.scopes| && l in n.scopes[b]
      ensures MarkOwner(f.blocks, l.register) == f.blocks[b := f.blocks[b].(ownsUpvalues := true)]
    {
      MarksLast(f.blocks, b, l.register);
    }
    if l in n.params {
      MarksNone(f.blocks, l.register);
    }
  }
}
