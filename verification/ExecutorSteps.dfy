/** `Executor::step` runs rounds until it has used up its fuel. How a run is cut into steps does not
    matter, and a step ends in time. */
module ExecutorSteps {
  import opened Values
  import opened Threads
  import opened FuelSpec
  import opened Executors
  import opened ExecutorSafety
  import opened ThreadInvariant

  const FUEL_PER_CALLBACK := 8
  const FUEL_PER_SEQ_STEP := 4
  const FUEL_PER_STEP := 4

  /** The fuel left after a turn. Lua code and callbacks use the counter in ways of their own. */
  function BurnTurn(f: Fuel, n: Network, c: Choice): Fuel
    requires Formed(n)
  {
    if Top(n).frames == [] then f
    else match Last(Top(n).frames)
      case CallbackFrame(_, _) => UseAll(Consume(f, FUEL_PER_CALLBACK), c.fuel)
      case Sequence(_, _, _) => UseAll(Consume(f, FUEL_PER_SEQ_STEP), c.fuel)
      case Lua(_, _, _, _, _, _) => UseAll(f, c.fuel)
      case _ => f
  }

  function Burn(f: Fuel, n: Network, c: Choice): Fuel
    requires Formed(n)
  {
    var r := Ready(n);
    Consume(if r.Some? && Formed(r.value) && Mode(Top(r.value)) == Normal then BurnTurn(f, r.value, c) else f, FUEL_PER_STEP)
  }

  predicate Halted(n: Network)
    requires Formed(n)
  {
    |n.stack| == 1 && Mode(Top(n)) != Normal
  }

  /** Why a step ends: `true` is returned in the first case and `false` in the second. In the third the
      choices end, and the step would go on. */
  datatype End = AllDone | OutOfFuel | Paused

  datatype Stepped = Stepped(next: Network, fuel: Fuel, used: nat, end: End)

  function Round(n: Network, c: Choice): Option<Network>
    requires Formed(n)
    ensures Round(n, c).Some? ==> Formed(Round(n, c).value)
  {
    match Iterate(n, c)
    case Some(Continues(m)) => if Formed(m) then Some(m) else None
    case _ => None
  }

  /** `Executor::step`: `None` is a panic. */
  function Step(n: Network, f: Fuel, cs: seq<Choice>): (s: Option<Stepped>)
    requires Formed(n)
    ensures s.Some? ==> Formed(s.value.next) && s.value.used <= |cs|
    decreases |cs|
  {
    if Halted(n) then Some(Stepped(n, f, 0, AllDone))
    else if cs == [] then Some(Stepped(n, f, 0, Paused))
    else match Round(n, cs[0])
      case None => None
      case Some(m) =>
        var g := Burn(f, n, cs[0]);
        if !ShouldContinue(g) then Some(Stepped(m, g, 1, OutOfFuel))
        else match Step(m, g, cs[1..])
          case None => None
          case Some(s) => Some(s.(used := s.used + 1))
  }

  /** All rounds of a run, without fuel. */
  function Play(n: Network, cs: seq<Choice>): Option<Network>
    requires Formed(n)
    ensures Play(n, cs).Some? ==> Formed(Play(n, cs).value)
    decreases |cs|
  {
    if cs == [] then Some(n)
    else match Round(n, cs[0])
      case None => None
      case Some(m) => Play(m, cs[1..])
  }

  lemma {:induction false} StepPlays(n: Network, f: Fuel, cs: seq<Choice>)
    requires Formed(n) && Step(n, f, cs).Some?
    ensures var s := Step(n, f, cs).value;
            Play(n, cs[..s.used]) == Some(s.next)
            && (s.end == AllDone ==> Halted(s.next))
            && (s.end == OutOfFuel ==> !ShouldContinue(s.fuel))
            && (s.end == Paused ==> s.used == |cs|)
            && (cs != [] && !Halted(n) ==> s.used > 0)
    decreases |cs|
  {
    hide Round, Halted, Burn;
    var s := Step(n, f, cs).value;
    if s.used > 0 {
      var m, g := Round(n, cs[0]).value, Burn(f, n, cs[0]);
      assert cs[..s.used][0] == cs[0] && cs[..s.used][1..] == cs[1..][..s.used - 1];
      if ShouldContinue(g) {
        StepPlays(m, g, cs[1..]);
      }
    }
  }

  /** Steps one after another, each with a fuel counter of its own. */
  function Steps(n: Network, fs: seq<Fuel>, cs: seq<Choice>): (r: Option<(Network, nat)>)
    requires Formed(n)
    ensures r.Some? ==> r.value.1 <= |cs| && Formed(r.value.0)
    decreases |fs|
  {
    if fs == [] then Some((n, 0))
    else match Step(n, fs[0], cs)
      case None => None
      case Some(s) =>
        match Steps(s.next, fs[1..], cs[s.used..])
        case None => None
        case Some((m, k)) => Some((m, s.used + k))
  }

  lemma {:induction false} PlayAppend(n: Network, cs: seq<Choice>, ds: seq<Choice>)
    requires Formed(n)
    ensures Play(n, cs + ds) == if Play(n, cs).Some? then Play(Play(n, cs).value, ds) else None
    decreases |cs|
  {
    hide Round;
    if cs == [] {
      assert cs + ds == ds;
    } else {
      assert (cs + ds)[0] == cs[0] && (cs + ds)[1..] == cs[1..] + ds;
      if Round(n, cs[0]).Some? {
        PlayAppend(Round(n, cs[0]).value, cs[1..], ds);
      }
    }
  }

  lemma PlayNothing(n: Network, cs: seq<Choice>)
    requires Formed(n)
    ensures Play(n, cs[..0]) == Some(n)
  {
  }

  lemma PlayHalted(n: Network, cs: seq<Choice>)
    requires Formed(n) && Halted(n) && cs != []
    ensures Play(n, cs).None?
  {
  }

  /** Steps do what the rounds do. */
  lemma {:induction false} StepsPlay(n: Network, fs: seq<Fuel>, cs: seq<Choice>)
    requires Formed(n) && Steps(n, fs, cs).Some?
    ensures var (m, k) := Steps(n, fs, cs).value; Play(n, cs[..k]) == Some(m)
    decreases |fs|
  {
    hide Step, Play, Formed;
    if fs == [] {
      PlayNothing(n, cs);
    } else {
      var s := Step(n, fs[0], cs).value;
      var (m, k) := Steps(s.next, fs[1..], cs[s.used..]).value;
      StepPlays(n, fs[0], cs);
      StepsPlay(s.next, fs[1..], cs[s.used..]);
      PlayAppend(n, cs[..s.used], cs[s.used..][..k]);
      assert cs[..s.used + k] == cs[..s.used] + cs[s.used..][..k];
    }
  }

  /** A run that has halted cannot go on, so it has one length. */
  lemma HaltsOnce(n: Network, cs: seq<Choice>, j: nat, k: nat)
    requires Formed(n) && j <= k <= |cs| && Play(n, cs[..j]).Some? && Halted(Play(n, cs[..j]).value)
    requires Play(n, cs[..k]).Some?
    ensures j == k
  {
    hide Play, Halted;
    var m, ds := Play(n, cs[..j]).value, cs[j..k];
    assert cs[..k] == cs[..j] + ds;
    PlayAppend(n, cs[..j], ds);
    if ds != [] {
      PlayHalted(m, ds);
    }
  }

  /** However a run is cut into steps, with whatever fuel: after the same number of rounds it is in the
      same state, and it halts, if it does, after the same number of rounds. */
  lemma SlicingIsTransparent(n: Network, cs: seq<Choice>, fs: seq<Fuel>, gs: seq<Fuel>)
    requires Formed(n) && Steps(n, fs, cs).Some? && Steps(n, gs, cs).Some?
    ensures var (m, j) := Steps(n, fs, cs).value;
            var (m', k) := Steps(n, gs, cs).value;
            (j == k ==> m == m') && (Halted(m) && Halted(m') ==> j == k && m == m')
  {
    hide Steps, Halted, Play;
    StepsPlay(n, fs, cs);
    StepsPlay(n, gs, cs);
    var (m, j) := Steps(n, fs, cs).value;
    var (m', k) := Steps(n, gs, cs).value;
    if Halted(m) && Halted(m') {
      if j <= k {
        HaltsOnce(n, cs, j, k);
      } else {
        HaltsOnce(n, cs, k, j);
      }
    }
  }

  /** The rounds that a step may take: one, or a quarter of the fuel, rounded up. */
  function Bound(fuel: int): nat {
    if fuel <= FUEL_PER_STEP then 1 else (fuel + FUEL_PER_STEP - 1) / FUEL_PER_STEP
  }

  /** A step ends behind a round exactly when the round has used up the fuel or interrupted it. */
  lemma StopsExactly(n: Network, f: Fuel, cs: seq<Choice>)
    requires Formed(n) && !Halted(n) && cs != [] && Step(n, f, cs).Some?
    ensures var s, g := Step(n, f, cs).value, Burn(f, n, cs[0]);
            s.used == 1 && s.end == OutOfFuel <==> g.remaining <= 0 || g.interrupted
  {
    hide Round, Burn, Halted;
    var m, g := Round(n, cs[0]).value, Burn(f, n, cs[0]);
    if ShouldContinue(g) {
      StepPlays(m, g, cs[1..]);
    }
  }

  /** A round costs 4, that of a callback 12 and that of a sequence 8, besides what the code itself uses. */
  lemma RoundCosts(f: Fuel, n: Network, c: Choice)
    requires Formed(n) && Mode(Top(n)) == Normal && c.fuel == [] && IsI32(f.remaining)
    ensures var cost := match Last(Top(n).frames) case CallbackFrame(_, _) => 12 case Sequence(_, _, _) => 8 case _ => 4;
            f.remaining - cost >= -0x8000_0000 ==> Burn(f, n, c) == f.(remaining := f.remaining - cost)
  {
  }

  lemma BurnsEnough(f: Fuel, n: Network, c: Choice)
    requires Formed(n) && IsI32(f.remaining) && Frugal(c.fuel)
    ensures var g := Burn(f, n, c);
            IsI32(g.remaining) && (g.remaining == MIN_FUEL || g.remaining <= f.remaining - FUEL_PER_STEP)
  {
    FrugalNeverAdds(f, c.fuel);
    FrugalNeverAdds(Consume(f, FUEL_PER_CALLBACK), c.fuel);
    FrugalNeverAdds(Consume(f, FUEL_PER_SEQ_STEP), c.fuel);
  }

  /** When no callback adds fuel, a step takes at most max(1, fuel / 4 rounded up) rounds. */
  lemma {:induction false} StepIsBounded(n: Network, f: Fuel, cs: seq<Choice>)
    requires Formed(n) && IsI32(f.remaining) && Step(n, f, cs).Some?
    requires forall c :: c in cs ==> Frugal(c.fuel)
    ensures Step(n, f, cs).value.used <= Bound(f.remaining)
    decreases |cs|
  {
    hide Round, Burn, Halted, Frugal;
    if !Halted(n) && cs != [] {
      var m, g := Round(n, cs[0]).value, Burn(f, n, cs[0]);
      assert cs[0] in cs;
      BurnsEnough(f, n, cs[0]);
      if ShouldContinue(g) {
        StepIsBounded(m, g, cs[1..]);
      }
    }
  }

  /** A step with enough choices ends by itself: it does not go on for ever. */
  lemma StepEnds(n: Network, f: Fuel, cs: seq<Choice>)
    requires Formed(n) && IsI32(f.remaining) && Step(n, f, cs).Some?
    requires (forall c :: c in cs ==> Frugal(c.fuel)) && |cs| > Bound(f.remaining)
    ensures Step(n, f, cs).value.end != Paused
  {
    StepIsBounded(n, f, cs);
    StepPlays(n, f, cs);
  }

  /** The states that a sequence of choices leads through are allowed for: every choice fits its state,
      and none ends in a tail call that is too short. */
  ghost predicate Plays(n: Network, cs: seq<Choice>)
    requires Formed(n)
    decreases |cs|
  {
    cs == [] || Halted(n)
    || (ChoiceOk(n, cs[0]) && !(Ready(n).Some? && Formed(Ready(n).value) && EndsShort(Ready(n).value, cs[0]))
        && (Round(n, cs[0]).Some? ==> Plays(Round(n, cs[0]).value, cs[1..])))
  }

  /** A step of an executor in a sound state does not panic, and leaves a sound state. Its answer `true`
      means that one thread is left and that it is not in `Normal` mode. */
  lemma {:induction false} StepIsSafe(n: Network, f: Fuel, cs: seq<Choice>)
    requires Sound(n) && Plays(n, cs)
    ensures Step(n, f, cs).Some? && Sound(Step(n, f, cs).value.next)
    ensures var s := Step(n, f, cs).value;
            s.end == AllDone ==> |s.next.stack| == 1 && Mode(Top(s.next)) != Normal && ModeOf(s.next) != Some(NormalMode)
    decreases |cs|
  {
    hide Distinct, AllGood, LowerWait, Burn, EndsShort, ChoiceOk, Ready, Iterate, Good, Mode;
    if !Halted(n) && cs != [] {
      SoundRound(n, cs[0]);
      var m, g := Round(n, cs[0]).value, Burn(f, n, cs[0]);
      if ShouldContinue(g) {
        StepIsSafe(m, g, cs[1..]);
      }
    }
    if Step(n, f, cs).value.end == AllDone {
      StepPlays(n, f, cs);
      assert Halted(Step(n, f, cs).value.next);
      DoneMode(Step(n, f, cs).value.next);
    }
  }

  lemma DoneMode(n: Network)
    requires Formed(n) && Halted(n)
    ensures ModeOf(n) != Some(NormalMode)
  {
  }

  lemma SoundRound(n: Network, c: Choice)
    requires Sound(n) && !Halted(n) && ChoiceOk(n, c)
    requires !(Ready(n).Some? && Formed(Ready(n).value) && EndsShort(Ready(n).value, c))
    ensures Round(n, c).Some? && Sound(Round(n, c).value)
  {
    hide Distinct, AllGood, LowerWait, EndsShort, ChoiceOk, Good, Iterate, Mode;
    RoundSound(n, c);
  }
}
