/** Register allocation of piccolo/src/compiler/register_allocator.rs. */
module AllocatorSpec {
  import opened Values

  const REGISTERS: nat := 256

  /** Which registers are in use, and the high-water mark of the stack top. */
  datatype Alloc = Alloc(used: set<nat>, size: nat)

  ghost predicate Ok(a: Alloc) {
    (forall r :: r in a.used ==> r < REGISTERS) && Top(a.used) <= a.size <= REGISTERS
  }

  ghost predicate IsFirstFree(used: set<nat>, f: nat) {
    f <= REGISTERS && (f < REGISTERS ==> f !in used) && forall x :: 0 <= x < f ==> x in used
  }

  ghost predicate IsTop(used: set<nat>, t: nat) {
    t <= REGISTERS && (t > 0 ==> t - 1 in used) && forall x :: x in used && x < REGISTERS ==> x < t
  }

  lemma FirstFreeExists(used: set<nat>, i: nat)
    requires i <= REGISTERS && forall x :: 0 <= x < i ==> x in used
    ensures exists f :: IsFirstFree(used, f)
    decreases REGISTERS - i
  {
    if i < REGISTERS && i in used {
      FirstFreeExists(used, i + 1);
    } else {
      assert IsFirstFree(used, i);
    }
  }

  lemma TopExists(used: set<nat>, n: nat)
    requires n <= REGISTERS && forall x :: x in used && x < REGISTERS ==> x < n
    ensures exists t :: IsTop(used, t)
  {
    if n > 0 && n - 1 !in used {
      TopExists(used, n - 1);
    } else {
      assert IsTop(used, n);
    }
  }

  /** The least register not in use, or 256. */
  ghost function FirstFree(used: set<nat>): (r: nat)
    ensures IsFirstFree(used, r)
  {
    FirstFreeExists(used, 0);
    var f :| IsFirstFree(used, f);
    f
  }

  /** One past the greatest register in use. */
  ghost function Top(used: set<nat>): (r: nat)
    ensures IsTop(used, r)
  {
    TopExists(used, REGISTERS);
    var t :| IsTop(used, t);
    t
  }

  lemma TopIs(used: set<nat>, t: nat)
    requires IsTop(used, t)
    ensures Top(used) == t
  {
    var u := Top(used);
    assert t > u ==> t - 1 < u;
    assert u > t ==> u - 1 < t;
  }

  lemma FirstFreeIs(used: set<nat>, f: nat)
    requires IsFirstFree(used, f)
    ensures FirstFree(used) == f
  {
    var g := FirstFree(used);
    assert g < f ==> g in used;
    assert f < g ==> f in used;
  }

  lemma FirstFreeBelowTop(used: set<nat>)
    ensures FirstFree(used) <= Top(used)
  {
    assert FirstFree(used) > Top(used) ==> Top(used) in used;
  }

  function Max(a: nat, b: nat): nat {
    if a < b then b else a
  }

  ghost function WithUsed(a: Alloc, used: set<nat>): Alloc {
    Alloc(used, Max(a.size, Top(used)))
  }

  ghost function Allocate(a: Alloc): Option<(nat, Alloc)> {
    var r := FirstFree(a.used);
    if r < REGISTERS then Some((r, WithUsed(a, a.used + {r}))) else None
  }

  function Range(start: nat, count: nat): (s: set<nat>)
    ensures forall x :: x in s <==> start <= x < start + count
  {
    if count == 0 then {} else Range(start, count - 1) + {start + count - 1}
  }

  /** A block of `count` registers at the stack top. A block that would end exactly at register 256 is not
      available here; the class tells what becomes of it. */
  ghost function Push(a: Alloc, count: nat): Option<(nat, Alloc)> {
    var t := Top(a.used);
    if 0 < count && t + count < REGISTERS
    then Some((t, WithUsed(a, a.used + Range(t, count))))
    else None
  }

  function Free(a: Alloc, r: nat): Alloc {
    a.(used := a.used - {r})
  }

  function PopTo(a: Alloc, newTop: nat): Alloc {
    a.(used := set r | r in a.used && r < newTop)
  }

  lemma AllocateOk(a: Alloc)
    requires Ok(a) && Allocate(a).Some?
    ensures var (r, b) := Allocate(a).value;
            Ok(b) && r !in a.used && r < b.size && b.used == a.used + {r} && a.size <= b.size
  {
  }

  lemma PushOk(a: Alloc, count: nat)
    requires Ok(a) && Push(a, count).Some?
    ensures var (r, b) := Push(a, count).value;
            Ok(b) && r == Top(a.used) && Top(b.used) == r + count && r + count <= b.size && a.size <= b.size
            && b.used == a.used + Range(r, count) && a.used !! Range(r, count)
  {
    var (r, b) := Push(a, count).value;
    assert r + count - 1 in b.used;
    TopIs(b.used, r + count);
  }

  lemma BlockOnTop(used: set<nat>, count: nat)
    requires 0 < count <= REGISTERS - Top(used)
    ensures var t, f := Top(used), FirstFree(used);
            Top(used + Range(t, count)) == t + count && FirstFree(used + Range(t, count)) == if f == t then t + count else f
  {
    var t, f := Top(used), FirstFree(used);
    FirstFreeBelowTop(used);
    assert t + count - 1 in used + Range(t, count);
    TopIs(used + Range(t, count), t + count);
    FirstFreeIs(used + Range(t, count), if f == t then t + count else f);
  }

  /** Using fewer registers keeps the allocator state good. */
  lemma FewerOk(a: Alloc, used: set<nat>)
    requires Ok(a) && used <= a.used
    ensures Ok(a.(used := used)) && Top(used) <= Top(a.used)
  {
    var t := Top(used);
    if t > 0 {
      assert t - 1 in a.used;
    }
  }
}

module RegisterAllocation {
  import opened Values
  import opened AllocatorSpec

  class RegisterAllocator {
    const registers: array<bool>
    var firstFree: nat
    var stackTop: nat
    var stackSize: nat
    ghost var used: set<nat>  // the registers marked in `registers`

    ghost predicate Marked(marks: set<nat>)
      reads registers
    {
      && registers.Length == REGISTERS
      && (forall r :: r in marks ==> r < REGISTERS)
      && forall i :: 0 <= i < REGISTERS ==> (registers[i] <==> i in marks)
    }

    ghost predicate Valid()
      reads this, registers
    {
      && Marked(used)
      && firstFree == FirstFree(used)
      && stackTop == Top(used)
      && stackTop <= stackSize <= REGISTERS
    }

    ghost function State(): (a: Alloc)
      reads this
    {
      Alloc(used, stackSize)
    }

    constructor ()
      ensures Valid() && fresh(registers)
      ensures State() == Alloc({}, 0)
    {
      registers := new bool[REGISTERS](_ => false);
      firstFree, stackTop, stackSize := 0, 0, 0;
      used := {};
      new;
      TopIs({}, 0);
      FirstFreeIs({}, 0);
    }

    /** Allocates the least free register, if any. */
    method Allocate() returns (r: Option<nat>)
      requires Valid()
      modifies this, registers
      ensures Valid()
      ensures match AllocatorSpec.Allocate(old(State()))
              case Some(p) => r == Some(p.0) && State() == p.1
              case None => r == None && State() == old(State())
    {
      FirstFreeBelowTop(used);
      if firstFree < REGISTERS {
        var register := firstFree;
        registers[register] := true;
        used := used + {register};
        if register == stackTop {
          stackTop := stackTop + 1;
          stackSize := Max(stackSize, stackTop);
        }
        TopIs(used, stackTop);
        var i := register;
        while i != REGISTERS && registers[i]
          invariant register <= i <= REGISTERS
          invariant forall x :: 0 <= x < i ==> x in used
        {
          i := i + 1;
        }
        firstFree := i;
        FirstFreeIs(used, i);
        r := Some(register);
      } else {
        r := None;
      }
    }

    /** Frees one allocated register. */
    method Free(register: nat)
      requires Valid() && register in used
      modifies this, registers
      ensures Valid()
      ensures State() == AllocatorSpec.Free(old(State()), register)
    {
      if register + 1 == stackTop {
        PopTo(register);
        assert used == old(used) - {register};
      } else {
        registers[register] := false;
        used := used - {register};
        TopIs(used, stackTop);
        firstFree := if firstFree < register then firstFree else register;
        FirstFreeIs(used, firstFree);
      }
    }

    /** The end of a range of registers, in 8 bits. */
    function RangeEnd(begin: nat, size: nat): nat {
      (begin + size) % 0x100
    }

    method Mark(begin: nat, end: nat)
      requires Marked(used) && end <= REGISTERS
      modifies registers, `used
      ensures Marked(used)
      ensures if begin < end then used == old(used) + AllocatorSpec.Range(begin, end - begin)
              else used == old(used) && registers[..] == old(registers[..])
    {
      var i := begin;
      while i < end
        invariant begin <= i && (i <= end || i == begin) && Marked(used)
        invariant used == old(used) + AllocatorSpec.Range(begin, i - begin)
        invariant i == begin ==> registers[..] == old(registers[..])
      {
        registers[i] := true;
        used := used + {i};
        i := i + 1;
      }
    }

    method Raise(begin: nat, size: nat)
      requires Marked(used) && begin == stackTop && 0 < size <= REGISTERS - begin
      modifies this, registers
      ensures stackTop == begin + size && stackSize == Max(old(stackSize), stackTop)
      ensures firstFree == if old(firstFree) == begin then begin + size else old(firstFree)
      ensures Marked(used)
      ensures if begin + size < REGISTERS then used == old(used) + AllocatorSpec.Range(begin, size)
              else used == old(used) && registers[..] == old(registers[..])
    {
      Mark(begin, RangeEnd(begin, size));
      if firstFree == stackTop {
        firstFree := firstFree + size;
      }
      stackTop := stackTop + size;
      stackSize := Max(stackSize, stackTop);
    }

    /** Allocates `size` registers at the end of the allocated area. A block that ends exactly at register 256 is
        given away and not marked, because the end of its range is 0; the allocator's state is then broken. */
    method Push(size: nat) returns (r: Option<nat>)
      requires Valid()
      modifies this, registers
      ensures r == if 0 < size <= REGISTERS - old(stackTop) then Some(old(stackTop)) else None
      ensures Valid() <==> size == 0 || old(stackTop) + size != REGISTERS
      ensures Valid() ==>
                match AllocatorSpec.Push(old(State()), size)
                case Some(p) => r == Some(p.0) && State() == p.1
                case None => r == None && State() == old(State())
      ensures !Valid() ==> stackTop == REGISTERS && used == old(used) && registers[..] == old(registers[..])
    {
      if size == 0 {
        r := None;
      } else if size <= REGISTERS - stackTop {
        var begin := stackTop;
        BlockOnTop(used, size);
        Raise(begin, size);
        r := Some(begin);
      } else {
        r := None;
      }
    }

    /** Frees every register from `newTop` on. */
    method PopTo(newTop: nat)
      requires Valid()
      modifies this, registers
      ensures Valid()
      ensures State() == AllocatorSpec.PopTo(old(State()), newTop)
    {
      if stackTop > newTop {
        var i := newTop;
        ghost var was := used;
        while i < stackTop
          modifies registers, `used
          invariant newTop <= i <= stackTop
          invariant Marked(used)
          invariant forall r :: r in used <==> r in was && !(newTop <= r < i)
        {
          registers[i] := false;
          used := used - {i};
          i := i + 1;
        }
        stackTop := newTop;
        firstFree := if firstFree < stackTop then firstFree else stackTop;
        FirstFreeIs(used, firstFree);
        i := stackTop;
        while i > firstFree && !registers[i - 1]
          modifies `stackTop
          invariant firstFree <= i && stackTop == i <= newTop
          invariant forall x :: x in used ==> x < i
        {
          i := i - 1;
          stackTop := i;
        }
        TopIs(used, stackTop);
      } else {
        assert used == AllocatorSpec.PopTo(State(), newTop).used;
      }
    }
  }
}
