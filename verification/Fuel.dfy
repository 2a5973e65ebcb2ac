/** The fuel counter of piccolo/src/fuel.rs: a saturating 32-bit number and an interrupt flag. */
module FuelSpec {
  const MIN_FUEL := -0x8000_0000
  const MAX_FUEL := 0x7fff_ffff

  datatype Fuel = Fuel(remaining: int, interrupted: bool)

  predicate IsI32(n: int) {
    MIN_FUEL <= n <= MAX_FUEL
  }

  function Saturate(n: int): (r: int)
    ensures IsI32(r) && (IsI32(n) ==> r == n)
  {
    if n < MIN_FUEL then MIN_FUEL else if n > MAX_FUEL then MAX_FUEL else n
  }

  function Adjust(f: Fuel, n: int): Fuel {
    f.(remaining := Saturate(f.remaining + n))
  }

  function Consume(f: Fuel, n: int): Fuel {
    Adjust(f, Saturate(-n))
  }

  predicate ShouldContinue(f: Fuel) {
    f.remaining > 0 && !f.interrupted
  }

  /** What code that is given the counter may do with it. */
  datatype FuelUse = Adjusts(n: int) | Sets(n: int) | Interrupts | ClearsInterrupt

  function Use(f: Fuel, u: FuelUse): Fuel {
    match u
    case Adjusts(n) => Adjust(f, n)
    case Sets(n) => f.(remaining := n)
    case Interrupts => f.(interrupted := true)
    case ClearsInterrupt => f.(interrupted := false)
  }

  function UseAll(f: Fuel, us: seq<FuelUse>): Fuel
    decreases |us|
  {
    if us == [] then f else UseAll(Use(f, us[0]), us[1..])
  }

  /** Only uses that add no fuel. */
  predicate Frugal(us: seq<FuelUse>) {
    forall u :: u in us ==> (u.Adjusts? && IsI32(u.n) && u.n <= 0) || u.Interrupts?
  }

  lemma {:induction false} FrugalNeverAdds(f: Fuel, us: seq<FuelUse>)
    requires IsI32(f.remaining) && Frugal(us)
    ensures IsI32(UseAll(f, us).remaining) && UseAll(f, us).remaining <= f.remaining
    ensures f.interrupted ==> UseAll(f, us).interrupted
    decreases |us|
  {
    if us != [] {
      assert us[0] in us;
      FrugalNeverAdds(Use(f, us[0]), us[1..]);
    }
  }
}

module FuelCounter {
  import opened FuelSpec

  class Counter {
    var fuel: int
    var interrupted: bool

    predicate Valid()
      reads this
    {
      IsI32(fuel)
    }

    function Value(): Fuel
      reads this
    {
      Fuel(fuel, interrupted)
    }

    constructor (n: int)
      requires IsI32(n)
      ensures Valid() && Value() == Fuel(n, false)
    {
      fuel := n;
      interrupted := false;
    }

    /** Credits fuel up to a maximum, and clears the interrupt. */
    method Refill(n: int, most: int)
      requires Valid() && IsI32(n) && IsI32(most)
      modifies this
      ensures Valid() && !interrupted && fuel <= most
      ensures fuel == most || fuel == Adjust(old(Value()), n).remaining
      ensures n >= 0 && old(fuel) <= most ==> old(fuel) <= fuel <= old(fuel) + n
    {
      fuel := Saturate(fuel + n);
      if fuel > most {
        fuel := most;
      }
      interrupted := false;
    }

    method Adjusting(n: int)
      requires Valid() && IsI32(n)
      modifies this`fuel
      ensures Valid() && Value() == Adjust(old(Value()), n)
    {
      fuel := Saturate(fuel + n);
    }

    method Consuming(n: int)
      requires Valid() && IsI32(n)
      modifies this`fuel
      ensures Valid() && Value() == Consume(old(Value()), n)
    {
      Adjusting(Saturate(-n));
    }

    /** Callbacks and Lua code use the counter they are handed. */
    method Using(us: seq<FuelUse>)
      requires Valid() && forall u :: u in us && (u.Adjusts? || u.Sets?) ==> IsI32(u.n)
      modifies this
      ensures Valid() && Value() == UseAll(old(Value()), us)
    {
      var i := 0;
      while i < |us|
        invariant 0 <= i <= |us| && Valid()
        invariant UseAll(old(Value()), us) == UseAll(Value(), us[i..])
      {
        assert us[i] in us;
        match us[i] {
          case Adjusts(n) => Adjusting(n);
          case Sets(n) => fuel := n;
          case Interrupts => interrupted := true;
          case ClearsInterrupt => interrupted := false;
        }
        assert us[i..][1..] == us[i + 1..];
        i := i + 1;
      }
    }
  }
}
