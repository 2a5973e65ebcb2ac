/** Names in every state that the compiler can reach. Beside each function under compilation stands the nest of
    scopes that its lists of locals and blocks stand for. */
module ScopeRuns {
  import opened Values
  import opened Scopes
  import opened ScopeTheorems
  import opened ScopeBlocks

  /** The scopes of a function, and the top of its register stack. */
  datatype Side = Side(nest: Nest, top: nat)

  datatype Tracked = Tracked(fns: seq<Function>, sides: seq<Side>)

  /** What happens to names while functions are compiled, and how far expressions and loops use registers. */
  datatype Event =
    | Declare(name: string) | Registers(top: nat) | EnterBlock | ExitBlock
    | EnterFunction(parameters: seq<string>) | LeaveFunction
    | Use(name: string)

  function Parameters(names: seq<string>): (ls: seq<Local>)
    ensures |ls| == |names| && forall l :: l in ls ==> l.register < |names|
  {
    seq(|names|, i requires 0 <= i < |names| => Local(names[i], i))
  }

  predicate Formed(t: Tracked) {
    |t.fns| == |t.sides| > 0
  }

  function Replace(t: Tracked, f: Function, side: Side): Tracked
    requires Formed(t)
  {
    var k := |t.fns| - 1;
    Tracked(t.fns[k := f], t.sides[k := side])
  }

  /** Registers of locals, and of the blocks around, stay in use. */
  predicate InUse(f: Function, top: nat) {
    && (forall i :: 0 <= i < |f.locals| ==> f.locals[i].register < top)
    && forall b :: 0 <= b < |f.blocks| ==> f.blocks[b].stackBottom <= top
  }

  function After(t: Tracked, e: Event): Option<Tracked>
    requires Formed(t)
  {
    var k := |t.fns| - 1;
    var f, side := t.fns[k], t.sides[k];
    var scopes := side.nest.scopes;
    match e
    case Declare(name) =>
      if scopes == [] then None
      else
        var l, last := Local(name, side.top), |scopes| - 1;
        Some(Replace(t, f.(locals := f.locals + [l]),
                     Side(side.nest.(scopes := scopes[last := scopes[last] + [l]]), side.top + 1)))
    case Registers(top) => if InUse(f, top) then Some(Replace(t, f, side.(top := top))) else None
    case EnterBlock =>
      Some(Replace(t, f.(blocks := f.blocks + [Block(side.top, false)]), side.(nest := side.nest.(scopes := scopes + [[]]))))
    case ExitBlock =>
      if f.blocks == [] || scopes == [] then None
      else
        var bottom := f.blocks[|f.blocks| - 1].stackBottom;
        Some(Replace(t, f.(locals := PopLocals(f.locals, bottom), blocks := f.blocks[..|f.blocks| - 1]),
                     Side(side.nest.(scopes := scopes[..|scopes| - 1]), bottom)))
    case EnterFunction(names) =>
      Some(Tracked(t.fns + [Function(Parameters(names), [], [])], t.sides + [Side(Nest(Parameters(names), []), |names|)]))
    case LeaveFunction => if k > 0 then Some(Tracked(t.fns[..k], t.sides[..k])) else None
    case Use(name) =>
      match FindVariable(t.fns, name)
      case None => None
      case Some((fns, _)) => Some(Tracked(fns, t.sides))
  }

  function AfterAll(t: Tracked, es: seq<Event>): Option<Tracked>
    requires Formed(t)
    decreases |es|
  {
    if es == [] then Some(t)
    else match After(t, es[0])
      case None => None
      case Some(u) => if Formed(u) then AfterAll(u, es[1..]) else None
  }

  /** A chunk before its outermost block. */
  function Start(): Tracked {
    Tracked([Function([], [], [])], [Side(Nest([], []), 0)])
  }

  /** The invariant: every function's lists are its scopes, and upvalues mean what they should. */
  ghost predicate Tracks(t: Tracked) {
    Formed(t) && UpValuesOk(t.fns) && AllMatch(t) && AllOwned(t.fns)
  }

  /** Marking the owner of a register changes nothing any more. */
  predicate Owned(f: Function, register: nat) {
    MarkOwner(f.blocks, register) == f.blocks
  }

  predicate PlaceOwned(fns: seq<Function>, k: nat, place: Place) {
    place.Register? ==> place.depth < k && place.depth < |fns| && Owned(fns[place.depth], place.register)
  }

  /** Every upvalue's variable is in a block that is marked, unless it is a parameter. */
  ghost predicate AllOwned(fns: seq<Function>) {
    forall k, u :: 0 <= k < |fns| && 0 <= u < |fns[k].upvalues| ==> PlaceOwned(fns, k, Visible(fns[..k], fns[k].upvalues[u].name))
  }

  ghost predicate AllMatch(t: Tracked)
    requires Formed(t)
  {
    forall k :: 0 <= k < |t.fns| ==> Matches(t.fns[k], t.sides[k].nest, t.sides[k].top)
  }

  /** The innermost declaration of a name in nested functions with nested blocks. */
  function Innermost(sides: seq<Side>, name: string): Place {
    if sides == [] then (if name == ENV then ChunkEnvironment else Nowhere)
    else
      var k := |sides| - 1;
      var r := InScopes(sides[k].nest, name);
      if r.Some? then Register(k, r.value) else Innermost(sides[..k], name)
  }

  lemma {:induction false} VisibleIsInnermost(t: Tracked, name: string, n: nat)
    requires Formed(t) && AllMatch(t) && n <= |t.fns|
    ensures Visible(t.fns[..n], name) == Innermost(t.sides[..n], name)
  {
    if n > 0 {
      var k := n - 1;
      assert t.fns[..n][..k] == t.fns[..k] && t.sides[..n][..k] == t.sides[..k];
      assert Matches(t.fns[k], t.sides[k].nest, t.sides[k].top);
      FindsInnermostScope(t.sides[k].nest, name);
      VisibleIsInnermost(t, name, k);
    }
  }

  // Each event keeps the invariant.

  lemma ReplaceTracks(t: Tracked, f: Function, side: Side)
    requires Tracks(t) && f.upvalues == t.fns[|t.fns| - 1].upvalues && Matches(f, side.nest, side.top)
    ensures Tracks(Replace(t, f, side))
  {
    LastLocalsOk(t.fns, f);
    hide Matches, UpValuesOk, Owned, Visible;
    var k, gns := |t.fns| - 1, Replace(t, f, side).fns;
    forall i, u | 0 <= i < |gns| && 0 <= u < |gns[i].upvalues| ensures PlaceOwned(gns, i, Visible(gns[..i], gns[i].upvalues[u].name)) {
      assert gns[..i] == t.fns[..i] && gns[i].upvalues == t.fns[i].upvalues;
      assert PlaceOwned(t.fns, i, Visible(t.fns[..i], t.fns[i].upvalues[u].name));
    }
  }

  lemma RegistersMatch(f: Function, n: Nest, top: nat, top': nat)
    requires Matches(f, n, top) && InUse(f, top')
    ensures Matches(f, n, top')
  {
    forall l | l in n.params ensures l.register < top' {
      assert l in f.locals;
    }
    forall b, l | 0 <= b < |f.blocks| && l in n.scopes[b] ensures l.register < top' {
      InConcat(n.scopes, b, l);
      assert l in f.locals;
    }
  }

  lemma {:induction false} InConcat(ss: seq<seq<Local>>, b: nat, l: Local)
    requires b < |ss| && l in ss[b]
    ensures l in Concat(ss)
  {
    if b < |ss| - 1 {
      InConcat(ss[..|ss| - 1], b, l);
    }
  }

  /** Uses of names mark blocks, and change no local and no block otherwise. */
  ghost predicate Marked(f: Function, g: Function) {
    && g.locals == f.locals && |g.blocks| == |f.blocks|
    && forall b :: 0 <= b < |f.blocks| ==> g.blocks[b].stackBottom == f.blocks[b].stackBottom
  }

  lemma MarkedMatches(f: Function, g: Function, n: Nest, top: nat)
    requires Matches(f, n, top) && Marked(f, g)
    ensures Matches(g, n, top)
  {
  }

  lemma {:induction false} MarkOwnerBottoms(blocks: seq<Block>, register: nat)
    ensures |MarkOwner(blocks, register)| == |blocks|
    ensures forall b :: 0 <= b < |blocks| ==> MarkOwner(blocks, register)[b].stackBottom == blocks[b].stackBottom
  {
    if blocks != [] {
      MarkOwnerBottoms(blocks[..|blocks| - 1], register);
    }
  }

  /** Marking the owner of one register keeps the owner of another one marked. */
  lemma {:induction false} MarkKeeps(blocks: seq<Block>, r: nat, r': nat)
    requires MarkOwner(blocks, r) == blocks
    ensures MarkOwner(MarkOwner(blocks, r'), r) == MarkOwner(blocks, r')
  {
    if blocks != [] {
      var n := |blocks| - 1;
      var marked := MarkOwner(blocks, r');
      MarkOwnerBottoms(blocks[..n], r');
      if blocks[n].stackBottom > r' {
        assert marked[..n] == MarkOwner(blocks[..n], r') && marked[n] == blocks[n];
      } else {
        assert marked[..n] == blocks[..n];
      }
      if blocks[n].stackBottom > r {
        assert blocks == MarkOwner(blocks[..n], r) + [blocks[n]];
        assert MarkOwner(blocks[..n], r) == blocks[..n] by {
          MarkOwnerBottoms(blocks[..n], r);
        }
        MarkKeeps(blocks[..n], r, r');
        assert MarkOwner(marked, r) == MarkOwner(marked[..n], r) + [marked[n]];
        assert marked == marked[..n] + [marked[n]];
      } else {
        assert blocks[n].ownsUpvalues;
        assert marked[n].ownsUpvalues && marked[n].stackBottom <= r;
      }
    }
  }

  lemma {:induction false} MarkTwice(blocks: seq<Block>, r: nat)
    ensures MarkOwner(MarkOwner(blocks, r), r) == MarkOwner(blocks, r)
  {
    if blocks != [] && blocks[|blocks| - 1].stackBottom > r {
      var n := |blocks| - 1;
      MarkOwnerBottoms(blocks[..n], r);
      MarkTwice(blocks[..n], r);
      assert MarkOwner(blocks, r)[..n] == MarkOwner(blocks[..n], r);
    }
  }

  /** What handing a variable down changes: from `depth` inwards there are new upvalues, all of that name. */
  ghost predicate Handed(fns: seq<Function>, gns: seq<Function>, depth: nat, name: string) {
    |gns| == |fns| && forall k :: 0 <= k < |fns| ==> HandedTo(fns[k], gns[k], k >= depth, name)
  }

  ghost predicate HandedTo(f: Function, g: Function, more: bool, name: string) {
    && g.locals == f.locals && g.blocks == f.blocks && f.upvalues <= g.upvalues
    && if more then forall u :: |f.upvalues| <= u < |g.upvalues| ==> g.upvalues[u].name == name else g.upvalues == f.upvalues
  }

  lemma {:induction false} HandDownHands(fns: seq<Function>, depth: nat, name: string, d: Descriptor)
    requires depth < |fns| && HandDown(fns, depth, name, d).Some?
    ensures Handed(fns, HandDown(fns, depth, name, d).value.0, depth, name)
    decreases |fns| - depth
  {
    var next := fns[depth := PushUpValue(fns[depth], name, d)];
    if depth < |fns| - 1 {
      var gns := HandDown(fns, depth, name, d).value.0;
      HandDownHands(next, depth + 1, name, Outer(|fns[depth].upvalues|));
      forall k | 0 <= k < |fns| ensures HandedTo(fns[k], gns[k], k >= depth, name) {
        assert HandedTo(next[k], gns[k], k >= depth + 1, name);
      }
    }
  }

  /** The functions before upvalues are handed down. */
  function Prepared(fns: seq<Function>, name: string): seq<Function>
    requires fns != []
  {
    match Search(fns, |fns|, name)
    case EnvironmentHit => fns[0 := PushUpValue(fns[0], name, Environment)]
    case LocalHit(depth, register) =>
      if depth < |fns| - 1 then fns[depth := fns[depth].(blocks := MarkOwner(fns[depth].blocks, register))] else fns
    case _ => fns
  }

  /** From which depth on a use may make new upvalues. */
  function NewFrom(fns: seq<Function>, name: string): nat
    requires fns != []
  {
    match Search(fns, |fns|, name)
    case EnvironmentHit => 0
    case LocalHit(depth, _) => depth + 1
    case UpHit(depth, _) => depth + 1
    case Miss => |fns|
  }

  lemma UseHands(fns: seq<Function>, name: string)
    requires fns != [] && FindVariable(fns, name).Some?
    ensures |Prepared(fns, name)| == |fns|
    ensures Handed(Prepared(fns, name), FindVariable(fns, name).value.0, NewFrom(fns, name), name)
  {
    hide Search, MarkOwner, HandDown;
    var next := Prepared(fns, name);
    match Search(fns, |fns|, name) {
      case Miss =>
      case EnvironmentHit =>
        if |fns| > 1 {
          HandDownHands(next, 1, name, Outer(0));
          var gns := FindVariable(fns, name).value.0;
          forall k | 0 <= k < |fns| ensures HandedTo(next[k], gns[k], k >= 0, name) {
            assert HandedTo(next[k], gns[k], k >= 1, name);
          }
        }
      case UpHit(depth, index) =>
        if depth < |fns| - 1 {
          HandDownHands(fns, depth + 1, name, Outer(index));
        }
      case LocalHit(depth, register) =>
        if depth < |fns| - 1 {
          HandDownHands(next, depth + 1, name, ParentLocal(register));
        }
    }
  }

  /** The locals and block bottoms after a use are those before it. */
  lemma UseMarks(fns: seq<Function>, name: string)
    requires fns != [] && FindVariable(fns, name).Some?
    ensures var gns := FindVariable(fns, name).value.0;
            |gns| == |fns| && forall k :: 0 <= k < |fns| ==> Marked(fns[k], gns[k])
  {
    UseHands(fns, name);
    var next, gns := Prepared(fns, name), FindVariable(fns, name).value.0;
    hide FindVariable, Search, MarkOwner, HandedTo;
    forall k | 0 <= k < |fns| ensures Marked(fns[k], gns[k]) {
      match Search(fns, |fns|, name) {
        case LocalHit(depth, register) => MarkOwnerBottoms(fns[k].blocks, register);
        case _ =>
      }
      assert HandedTo(next[k], gns[k], k >= NewFrom(fns, name), name);
      HandedBlocks(next[k], gns[k], k >= NewFrom(fns, name), name);
    }
  }

  lemma HandedBlocks(f: Function, g: Function, more: bool, name: string)
    requires HandedTo(f, g, more, name)
    ensures g.locals == f.locals && g.blocks == f.blocks && f.upvalues <= g.upvalues
  {
  }

  /** Where the new upvalues' variable is: in a block that has been marked before, or is now. */
  lemma NewUpValuesOwned(fns: seq<Function>, name: string, k: nat)
    requires fns != [] && UpValuesOk(fns) && AllOwned(fns) && NewFrom(fns, name) <= k < |fns|
    ensures PlaceOwned(Prepared(fns, name), k, Visible(fns[..k], name))
  {
    SearchPasses(fns, |fns|, name);
    match Search(fns, |fns|, name) {
      case EnvironmentHit =>
        VisibleThrough(fns, 0, k, name);
        assert fns[..0] == [];
      case LocalHit(depth, r) =>
        VisibleThrough(fns, depth + 1, k, name);
        assert fns[..depth + 1][..depth] == fns[..depth];
        MarkTwice(fns[depth].blocks, r);
      case UpHit(depth, u) =>
        VisibleThrough(fns, depth + 1, k, name);
        assert fns[..depth + 1][..depth] == fns[..depth];
        assert PlaceOwned(fns, depth, Visible(fns[..depth], fns[depth].upvalues[u].name));
    }
  }

  /** Preparing keeps marked blocks marked. */
  lemma PreparedOwned(fns: seq<Function>, name: string, k: nat, place: Place)
    requires fns != [] && PlaceOwned(fns, k, place)
    ensures PlaceOwned(Prepared(fns, name), k, place)
  {
    if place.Register? {
      match Search(fns, |fns|, name) {
        case LocalHit(depth, r) =>
          if depth == place.depth {
            MarkKeeps(fns[depth].blocks, place.register, r);
          }
        case _ =>
      }
    }
  }

  lemma UseOwned(fns: seq<Function>, name: string)
    requires fns != [] && UpValuesOk(fns) && AllOwned(fns) && FindVariable(fns, name).Some?
    ensures AllOwned(FindVariable(fns, name).value.0)
  {
    UseHands(fns, name);
    UseMarks(fns, name);
    var next, gns := Prepared(fns, name), FindVariable(fns, name).value.0;
    hide FindVariable, Search, MarkOwner, UpValuesOk, Visible, HandedTo;
    forall k, u | 0 <= k < |gns| && 0 <= u < |gns[k].upvalues|
      ensures PlaceOwned(gns, k, Visible(gns[..k], gns[k].upvalues[u].name))
    {
      assert forall j :: 0 <= j < |fns| ==> Marked(fns[j], gns[j]);
      VisibleSame(fns[..k], gns[..k], gns[k].upvalues[u].name);
      assert HandedTo(next[k], gns[k], k >= NewFrom(fns, name), name);
      UpValueOwned(fns, next[k], gns[k], k, u, name);
      var place := Visible(fns[..k], gns[k].upvalues[u].name);
      if place.Register? {
        var d := place.depth;
        assert HandedTo(next[d], gns[d], d >= NewFrom(fns, name), name);
        HandedBlocks(next[d], gns[d], d >= NewFrom(fns, name), name);
      }
    }
  }

  lemma UpValueOwned(fns: seq<Function>, f: Function, g: Function, k: nat, u: nat, name: string)
    requires fns != [] && UpValuesOk(fns) && AllOwned(fns) && k < |fns| == |Prepared(fns, name)| && f == Prepared(fns, name)[k]
    requires HandedTo(f, g, k >= NewFrom(fns, name), name) && u < |g.upvalues|
    ensures PlaceOwned(Prepared(fns, name), k, Visible(fns[..k], g.upvalues[u].name))
  {
    hide UpValuesOk, Visible, MarkOwner, PlaceOwned;
    if u < |fns[k].upvalues| {
      assert g.upvalues[u] == fns[k].upvalues[u];
      PreparedOwned(fns, name, k, Visible(fns[..k], fns[k].upvalues[u].name));
    } else {
      assert k >= NewFrom(fns, name) && g.upvalues[u].name == name;
      NewUpValuesOwned(fns, name, k);
    }
  }

  lemma UseTracks(t: Tracked, name: string)
    requires Tracks(t) && FindVariable(t.fns, name).Some?
    ensures Tracks(Tracked(FindVariable(t.fns, name).value.0, t.sides))
  {
    FindsInnermost(t.fns, name);
    UseMarks(t.fns, name);
    UseOwned(t.fns, name);
    var gns := FindVariable(t.fns, name).value.0;
    hide FindVariable, UpValuesOk, Matches, AllOwned;
    forall k | 0 <= k < |gns| ensures Matches(gns[k], t.sides[k].nest, t.sides[k].top) {
      MarkedMatches(t.fns[k], gns[k], t.sides[k].nest, t.sides[k].top);
    }
  }

  lemma EventTracks(t: Tracked, e: Event)
    requires Tracks(t) && After(t, e).Some?
    ensures Tracks(After(t, e).value)
  {
    hide FindVariable, UpValuesOk, PopLocals, Matches, AllMatch, InUse, AllOwned;
    var k := |t.fns| - 1;
    var f, side, u := t.fns[k], t.sides[k], After(t, e).value;
    LastMatches(t);
    match e {
      case Declare(name) =>
        DeclareMatches(f, side.nest, side.top, name);
        ReplaceTracks(t, u.fns[k], u.sides[k]);
      case Registers(top) =>
        RegistersMatch(f, side.nest, side.top, top);
        ReplaceTracks(t, u.fns[k], u.sides[k]);
      case EnterBlock =>
        EnterMatches(f, side.nest, side.top);
        ReplaceTracks(t, u.fns[k], u.sides[k]);
      case ExitBlock =>
        BlocksAreScopes(f, side.nest, side.top);
        ExitMatches(f, side.nest, side.top);
        ReplaceTracks(t, u.fns[k], u.sides[k]);
      case EnterFunction(names) => EnterFunctionTracks(t, names);
      case LeaveFunction => LeaveFunctionTracks(t);
      case Use(name) => UseTracks(t, name);
    }
  }

  lemma LastMatches(t: Tracked)
    requires Formed(t) && AllMatch(t)
    ensures var k := |t.fns| - 1; Matches(t.fns[k], t.sides[k].nest, t.sides[k].top)
  {
  }

  lemma BlocksAreScopes(f: Function, n: Nest, top: nat)
    requires Matches(f, n, top)
    ensures |f.blocks| == |n.scopes|
  {
  }

  lemma EnterFunctionTracks(t: Tracked, names: seq<string>)
    requires Tracks(t)
    ensures Tracks(After(t, EnterFunction(names)).value)
  {
    hide UpValuesOk, Visible, Owned;
    var f := Function(Parameters(names), [], []);
    EnterFunctionOk(t.fns, f);
    assert Matches(f, Nest(Parameters(names), []), |names|);
    hide Matches;
    var gns := t.fns + [f];
    forall k, u | 0 <= k < |gns| && 0 <= u < |gns[k].upvalues| ensures PlaceOwned(gns, k, Visible(gns[..k], gns[k].upvalues[u].name)) {
      assert gns[..k] == t.fns[..k];
      assert PlaceOwned(t.fns, k, Visible(t.fns[..k], t.fns[k].upvalues[u].name));
    }
  }

  lemma LeaveFunctionTracks(t: Tracked)
    requires Tracks(t) && |t.fns| > 1
    ensures Tracks(After(t, LeaveFunction).value)
  {
    hide UpValuesOk, Matches, Visible, Owned;
    LeaveFunctionOk(t.fns);
    var gns := t.fns[..|t.fns| - 1];
    forall k, u | 0 <= k < |gns| && 0 <= u < |gns[k].upvalues| ensures PlaceOwned(gns, k, Visible(gns[..k], gns[k].upvalues[u].name)) {
      assert gns[..k] == t.fns[..k];
      assert PlaceOwned(t.fns, k, Visible(t.fns[..k], t.fns[k].upvalues[u].name));
    }
  }

  lemma NoUpValues(fns: seq<Function>)
    requires forall k :: 0 <= k < |fns| ==> fns[k].upvalues == []
    ensures UpValuesOk(fns) && AllOwned(fns)
  {
  }

  lemma NothingDeclared(f: Function, n: Nest, top: nat)
    requires f.locals == [] && f.blocks == [] && n.params == [] && n.scopes == []
    ensures Matches(f, n, top)
  {
  }

  lemma StartTracks()
    ensures Tracks(Start())
  {
    hide UpValuesOk, AllOwned, Matches;
    var t := Start();
    NoUpValues(t.fns);
    NothingDeclared(t.fns[0], t.sides[0].nest, t.sides[0].top);
  }

  lemma {:induction false} RunTracks(t: Tracked, es: seq<Event>)
    requires Tracks(t) && AfterAll(t, es).Some?
    ensures Tracks(AfterAll(t, es).value)
    decreases |es|
  {
    if es != [] {
      hide UpValuesOk, AllMatch, AllOwned, After;
      EventTracks(t, es[0]);
      RunTracks(After(t, es[0]).value, es[1..]);
    }
  }

  /** In every reachable state, at any depth of nesting, a name resolves to its innermost declaration in the
      nested functions and blocks, through the descriptors that closures are made by; a name without one is a
      global. No function has two upvalues of the same name. */
  lemma ScopingIsLexical(es: seq<Event>, name: string)
    requires AfterAll(Start(), es).Some?
    ensures var t := AfterAll(Start(), es).value;
            Tracks(t)
            && (FindVariable(t.fns, name).Some? ==>
                  var (fns, v) := FindVariable(t.fns, name).value;
                  fns != [] && Denotes(fns, v) == Innermost(t.sides, name) && (v.Global? ==> v.name == name))
  {
    StartTracks();
    RunTracks(Start(), es);
    var t := AfterAll(Start(), es).value;
    hide AfterAll, UpValuesOk, AllMatch;
    if FindVariable(t.fns, name).Some? {
      FindsInnermost(t.fns, name);
      VisibleIsInnermost(t, name, |t.fns|);
      assert t.fns[..|t.fns|] == t.fns && t.sides[..|t.sides|] == t.sides;
    }
  }

  /** In every reachable state, the block that declares the variable of an upvalue is marked as an owner; a
      parameter has no block. */
  lemma CapturedBlocksAreOwned(es: seq<Event>, k: nat, u: nat)
    requires AfterAll(Start(), es).Some?
    requires var fns := AfterAll(Start(), es).value.fns; k < |fns| && u < |fns[k].upvalues| && Cells(fns, k)[u].Register?
    ensures var t := AfterAll(Start(), es).value;
            var name, place := t.fns[k].upvalues[u].name, Cells(t.fns, k)[u];
            place.depth < k && place.depth < |t.sides|
            && var blocks, nest, l := t.fns[place.depth].blocks, t.sides[place.depth].nest, Local(name, place.register);
               l in nest.params
               || exists b :: 0 <= b < |blocks| && b < |nest.scopes| && l in nest.scopes[b] && blocks[b].ownsUpvalues
  {
    StartTracks();
    RunTracks(Start(), es);
    var t := AfterAll(Start(), es).value;
    hide AfterAll;
    var name, place := t.fns[k].upvalues[u].name, Cells(t.fns, k)[u];
    assert place == Visible(t.fns[..k], name);
    assert PlaceOwned(t.fns, k, place);
    hide UpValuesOk, Cells;
    VisibleIsThere(t.fns[..k], name);
    var f, side, l := t.fns[place.depth], t.sides[place.depth], Local(name, place.register);
    assert Matches(f, side.nest, side.top);
    OwnedBlock(f, side.nest, side.top, l);
  }

  lemma {:induction false} VisibleIsThere(fns: seq<Function>, name: string)
    ensures var place := Visible(fns, name);
            place.Register? ==> place.depth < |fns| && Local(name, place.register) in fns[place.depth].locals
  {
    if fns != [] {
      var k := |fns| - 1;
      if FindLocal(fns[k].locals, name).Some? {
        FoundIsThere(fns[k].locals, name);
      } else {
        VisibleIsThere(fns[..k], name);
      }
    }
  }

  lemma OwnedBlock(f: Function, n: Nest, top: nat, l: Local)
    requires Matches(f, n, top) && l in f.locals && Owned(f, l.register)
    ensures l in n.params || exists b :: 0 <= b < |f.blocks| && b < |n.scopes| && l in n.scopes[b] && f.blocks[b].ownsUpvalues
  {
    if l !in n.params {
      var b := ConcatHas(n.scopes, l);
      BlocksAreScopes(f, n, top);
      MarksDeclaringBlock(f, n, top, l);
      hide Matches, MarkOwner;
      assert f.blocks == f.blocks[b := f.blocks[b].(ownsUpvalues := true)];
      assert f.blocks[b].ownsUpvalues;
    }
  }

  lemma {:induction false} FoundIsThere(locals: seq<Local>, name: string)
    requires FindLocal(locals, name).Some?
    ensures Local(name, FindLocal(locals, name).value) in locals
  {
    var k := |locals| - 1;
    if locals[k].name == name {
      assert locals[k] == Local(name, locals[k].register);
    } else {
      FoundIsThere(locals[..k], name);
    }
  }
}
