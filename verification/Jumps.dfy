/** The bookkeeping of blocks, labels and jumps in compiler.rs: `enter_block`, `exit_block`, `jump`,
    `jump_target` and `finish`. Everything else a statement does is an event that emits operations,
    moves the top of the register stack or captures a variable of a block. */
module Jumps {
  import opened Values

  datatype Label = Unique(id: nat) | Named(name: string) | Break

  datatype Op = JumpOp(offset: int, close: Option<nat>) | OtherOp(id: nat)

  datatype Block = Block(stackBottom: nat, bottomTarget: nat, ownsUpvalues: bool)
  datatype Target = Target(lab: Label, instruction: nat, stackTop: nat, blockIndex: nat)
  datatype Pending = Pending(lab: Label, instruction: nat, blockIndex: nat, stackTop: nat, close: bool)

  datatype State = State(ops: seq<Op>, blocks: seq<Block>, targets: seq<Target>, pending: seq<Pending>, top: nat)

  datatype CompileError = DuplicateLabel | JumpLocal | JumpOverflow | Registers | GotoInvalid

  /** The assertions and panics of the source. */
  datatype Panic = NoBlock | InnerTarget | StackOrder | NotPlaceholder

  datatype Outcome = Next(state: State) | Fails(error: CompileError) | Panics(panic: Panic)

  const MAX_I16 := 0x7fff

  function JumpOffset(source: nat, target: nat): Option<int> {
    if target > source then
      if target - (source + 1) <= MAX_I16 then Some(target - (source + 1)) else None
    else
      if source + 1 - target <= MAX_I16 then Some(-(source + 1 - target)) else None
  }

  /** The jump of the virtual machine, whose counter is already past the operation. */
  function AddOffset(pc: nat, offset: int): Option<nat> {
    if offset > 0 then Some(pc + offset)
    else if offset < 0 then (if pc >= -offset then Some(pc + offset) else None)
    else Some(pc)
  }

  lemma OffsetUndone(source: nat, target: nat)
    requires JumpOffset(source, target).Some?
    ensures AddOffset(source + 1, JumpOffset(source, target).value) == Some(target)
  {
  }

  /** A register that fits into the operand for closing upvalues. */
  function CloseAt(register: nat): Option<Option<nat>> {
    if register <= 254 then Some(Some(register)) else None
  }

  const PLACEHOLDER := JumpOp(0, None)

  function EnterBlock(s: State): State {
    s.(blocks := s.blocks + [Block(s.top, |s.targets|, false)])
  }

  /** A pending jump leaves the last block, of which `depth` enclosing ones remain. */
  function Outward(p: Pending, depth: nat, top: nat, owned: bool): Pending
    requires depth > 0
  {
    if p.blockIndex < depth then p else p.(blockIndex := depth - 1, stackTop := top, close := p.close || owned)
  }

  function MapOutward(ps: seq<Pending>, depth: nat, top: nat, owned: bool): (r: seq<Pending>)
    requires depth > 0
    ensures |r| == |ps| && forall i :: 0 <= i < |ps| ==> r[i] == Outward(ps[i], depth, top, owned)
  {
    seq(|ps|, i requires 0 <= i < |ps| => Outward(ps[i], depth, top, owned))
  }

  /** Leaves a block; `top` is the top of the register stack without the block's variables. */
  function ExitBlock(s: State, top: nat): Outcome {
    if s.blocks == [] then Panics(NoBlock)
    else
      var last, rest := s.blocks[|s.blocks| - 1], s.blocks[..|s.blocks| - 1];
      if rest == [] then Next(s.(blocks := rest, top := top, targets := s.targets[..Min(last.bottomTarget, |s.targets|)]))
      else if last.ownsUpvalues && CloseAt(last.stackBottom).None? then Fails(Registers)
      else if exists p :: p in s.pending && p.blockIndex >= |rest| && p.stackTop < top then Panics(StackOrder)
      else
        var ops := if last.ownsUpvalues then s.ops + [JumpOp(0, CloseAt(last.stackBottom).value)] else s.ops;
        Next(State(ops, rest, s.targets[..Min(last.bottomTarget, |s.targets|)],
                   MapOutward(s.pending, |rest|, top, last.ownsUpvalues), top))
  }

  function Min(a: nat, b: nat): nat {
    if a < b then a else b
  }

  /** The innermost visible label of that name. */
  function FindTarget(targets: seq<Target>, lab: Label): (r: Option<Target>)
    ensures r.Some? ==> r.value in targets && r.value.lab == lab
    ensures r.None? ==> forall t :: t in targets ==> t.lab != lab
  {
    if targets == [] then None
    else
      var last := targets[|targets| - 1];
      if last.lab == lab then Some(last) else FindTarget(targets[..|targets| - 1], lab)
  }

  /** `jump`: to a label that is there already, or to one that is still to come. */
  function JumpTo(s: State, lab: Label): Outcome {
    if s.blocks == [] then Panics(NoBlock)
    else
      var here, block, found := |s.ops|, |s.blocks| - 1, FindTarget(s.targets, lab);
      match found
      case None => Next(s.(ops := s.ops + [PLACEHOLDER], pending := s.pending + [Pending(lab, here, block, s.top, false)]))
      case Some(t) =>
        if t.stackTop > s.top then Panics(StackOrder)
        else if t.blockIndex > block then Panics(InnerTarget)
        else
          var closes := t.stackTop < s.top && exists b :: t.blockIndex <= b <= block && s.blocks[b].ownsUpvalues;
          if JumpOffset(here, t.instruction).None? then Fails(JumpOverflow)
          else if closes && CloseAt(t.stackTop).None? then Fails(Registers)
          else Next(s.(ops := s.ops + [JumpOp(JumpOffset(here, t.instruction).value, if closes then Some(t.stackTop) else None)]))
  }

  /** The block already has the label. */
  function HasLabel(targets: seq<Target>, block: nat, lab: Label): bool {
    if targets == [] then false
    else
      var last := targets[|targets| - 1];
      last.blockIndex >= block && (last.lab == lab || HasLabel(targets[..|targets| - 1], block, lab))
  }

  predicate Resolves(p: Pending, block: nat, lab: Label) {
    p.blockIndex == block && p.lab == lab
  }

  function Resolving(ps: seq<Pending>, block: nat, lab: Label): seq<Pending> {
    if ps == [] then []
    else (if Resolves(ps[0], block, lab) then [ps[0]] else []) + Resolving(ps[1..], block, lab)
  }

  function Remaining(ps: seq<Pending>, block: nat, lab: Label): seq<Pending> {
    if ps == [] then []
    else (if Resolves(ps[0], block, lab) then [] else [ps[0]]) + Remaining(ps[1..], block, lab)
  }

  datatype Patched = Ok(ops: seq<Op>) | Bad(error: CompileError) | Broken(panic: Panic)

  /** Patches the placeholders of resolved jumps. */
  function PatchAll(ops: seq<Op>, ps: seq<Pending>, target: nat, top: nat): Patched
    decreases |ps|
  {
    if ps == [] then Ok(ops)
    else
      var p := ps[0];
      if p.stackTop > top then Broken(StackOrder)
      else if p.stackTop < top then Bad(JumpLocal)
      else if p.instruction >= |ops| || ops[p.instruction] != PLACEHOLDER then Broken(NotPlaceholder)
      else if JumpOffset(p.instruction, target).None? then Bad(JumpOverflow)
      else if p.close && CloseAt(top).None? then Bad(Registers)
      else PatchAll(ops[p.instruction := JumpOp(JumpOffset(p.instruction, target).value, if p.close then Some(top) else None)],
                    ps[1..], target, top)
  }

  /** `jump_target`: a label, at the next operation. */
  function JumpTarget(s: State, lab: Label): Outcome {
    if s.blocks == [] then Panics(NoBlock)
    else
      var here, block := |s.ops|, |s.blocks| - 1;
      if HasLabel(s.targets, block, lab) then Fails(DuplicateLabel)
      else if exists p :: p in s.pending && p.blockIndex > block then Panics(InnerTarget)
      else match PatchAll(s.ops, Resolving(s.pending, block, lab), here, s.top)
        case Bad(error) => Fails(error)
        case Broken(panic) => Panics(panic)
        case Ok(ops) => Next(s.(ops := ops, targets := s.targets + [Target(lab, here, s.top, block)],
                                pending := Remaining(s.pending, block, lab)))
  }

  /** `finish`: the final return. No jump may be left over. */
  function Finish(s: State, ret: nat): Outcome {
    if s.pending != [] then Fails(GotoInvalid) else Next(s.(ops := s.ops + [OtherOp(ret)]))
  }
}
