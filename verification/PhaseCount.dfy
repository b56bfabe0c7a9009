/** How many phases a run launches: counted along the recursive interpreter, and statically by
    walking the levels of nested regions. */
module PhaseCount {
  import opened Arith
  import opened Isa
  import opened Interleave
  import opened Streams
  import opened PhaseCut
  import opened Chains
  import opened Packing
  import opened OnePhase
  import opened PhaseUnits
  import opened Reference
  import opened Levels

  // ----- along the interpreter ----------------------------------------------------------------

  predicate HasTile(p: Program, part: seq<nat>) {
    AllSchedulable(p, part) && exists x | 0 <= x < |part| :: Tiles(p.tg, p.instrs[part[x]]) > 0
  }

  function InstrsOf(level: Level): seq<nat> {
    match level case Compute(part) => part case Region(i) => [i]
  }

  /** The phases with work that the interpreter passes on a range. */
  function RangeRun(p: Program, dev: Device, r: (nat, nat), depth: nat, fuel: nat, m: Mem): nat
    requires depth <= MAX_DEPTH + 1
    decreases MAX_DEPTH + 1 - depth, 3, 0
  {
    if depth > MAX_DEPTH || r.0 + r.1 > |p.instrs| then 0
    else LevelsRun(p, dev, LevelsFrom(p, [], Range(r.0, r.1)), depth, fuel, m)
  }

  function LevelsRun(p: Program, dev: Device, levels: seq<Level>, depth: nat, fuel: nat, m: Mem): nat
    requires depth <= MAX_DEPTH
    decreases MAX_DEPTH + 1 - depth, 2, |levels|
  {
    if levels == [] then 0
    else
      LevelRun(p, dev, levels[0], depth, fuel, m)
      + match EvalList(p, dev, InstrsOf(levels[0]), depth, fuel, m)
        case Done(m') => LevelsRun(p, dev, levels[1..], depth, fuel, m')
        case _ => 0
  }

  function LevelRun(p: Program, dev: Device, level: Level, depth: nat, fuel: nat, m: Mem): nat
    requires depth <= MAX_DEPTH
    decreases MAX_DEPTH + 1 - depth, 1, 0
  {
    match level
    case Compute(part) => if HasTile(p, part) then 1 else 0
    case Region(i) =>
      if i >= |p.instrs| then 0
      else
        var ins := p.instrs[i];
        if ins.IsRegion() && Cramped(dev, depth) then 0
        else
          match ins.op
          case While => TestsRun(p, dev, ins, depth, fuel, fuel, m)
          case For => TripsRun(p, dev, ins, Trips(dev.walker, ins.b), depth, fuel, m)
          case If => RangeRun(p, dev, Selected(ins, m), depth + 1, fuel, m)
          case _ => 0
  }

  function TestsRun(p: Program, dev: Device, ins: Instr, depth: nat, fuel: nat, left: nat, m: Mem): nat
    requires depth <= MAX_DEPTH
    decreases MAX_DEPTH + 1 - depth, 0, left, 0
  {
    if left == 0 then 0
    else
      RangeRun(p, dev, FirstRange(ins), depth + 1, fuel, m)
      + match EvalRange(p, dev, FirstRange(ins), depth + 1, fuel, m)
        case Done(tested) => if Get(tested, Cell(ins.dst, 0)) == 0 then 0
          else BodyRun(p, dev, ins, depth, fuel, left, tested)
        case _ => 0
  }

  /** The body of a While after its `left`-th last test, and all that follows. */
  function BodyRun(p: Program, dev: Device, ins: Instr, depth: nat, fuel: nat, left: nat, m: Mem): nat
    requires depth <= MAX_DEPTH && left > 0
    decreases MAX_DEPTH + 1 - depth, 0, left - 1, 1
  {
    RangeRun(p, dev, SecondRange(ins), depth + 1, fuel, m)
    + match EvalRange(p, dev, SecondRange(ins), depth + 1, fuel, m)
      case Done(m') => TestsRun(p, dev, ins, depth, fuel, left - 1, m')
      case _ => 0
  }

  function TripsRun(p: Program, dev: Device, ins: Instr, trips: nat, depth: nat, fuel: nat, m: Mem): nat
    requires depth <= MAX_DEPTH
    decreases MAX_DEPTH + 1 - depth, 0, trips
  {
    if trips == 0 then 0
    else
      RangeRun(p, dev, SecondRange(ins), depth + 1, fuel, m)
      + match EvalRange(p, dev, SecondRange(ins), depth + 1, fuel, m)
        case Done(m') => TripsRun(p, dev, ins, trips - 1, depth, fuel, m')
        case _ => 0
  }

  /** The whole program. */
  function PhasesRun(p: Program, dev: Device, fuel: nat, m: Mem): nat {
    RangeRun(p, dev, (0, p.mainLen), 0, fuel, m)
  }

  // ----- a phase has entries exactly when it has tiles -----------------------------------------

  /** The packed lanes hold every tile of the phase exactly once. */
  lemma PackedBag(p: Program, owner: seq<nat>, part: seq<nat>, units: seq<Unit>, n: pos)
    requires CleanPhase(p, part) && UnitsFor(p, owner, part, units)
    ensures PackedOk(owner, units, n) && Bag(PackedSteps(owner, units, n)) == multiset(PhaseSteps(p, part))
  {
    var comps :| AreChains(p, Pick(p, part, true), comps)
      && UnitsForChains(p, owner, Singles(Pick(p, part, false)) + comps, units);
    var chains := Singles(Pick(p, part, false)) + comps;
    ChainsAreGood(p, part, comps);
    UnitsTidsOk(p, owner, chains, units);
    PackedStepsAre(owner, units, n);
    PackedChunks(owner, units, n);
    var chunks := SortedChunks(units, n);
    AllLanesBag(owner, chunks, Place(Costs(chunks), n), n);
    UnitBagIs(p, owner, chains, units, 0);
    assert chains[0..] == chains;
    PermutedSteps(p, Flatten(chains), part);
  }

  lemma {:induction false} NoTilesNoParts(units: seq<Unit>, start: nat, n: nat, total: real)
    requires start <= |units| && total != 0.0 && forall x | 0 <= x < |units| :: units[x].tiles == 0
    ensures PartsOfAll(units, start, n, total) == []
    decreases |units| - start
  {
    if start >= |units| {
    } else {
      NoTilesNoParts(units, start + 1, n, total);
    }
  }

  lemma UnitsWithoutTiles(p: Program, owner: seq<nat>, part: seq<nat>, units: seq<Unit>)
    requires CleanPhase(p, part) && UnitsFor(p, owner, part, units) && !HasTile(p, part)
    ensures forall x | 0 <= x < |units| :: units[x].tiles == 0
  {
    var comps :| AreChains(p, Pick(p, part, true), comps)
      && UnitsForChains(p, owner, Singles(Pick(p, part, false)) + comps, units);
    var chains := Singles(Pick(p, part, false)) + comps;
    ChainsAreGood(p, part, comps);
    forall x | 0 <= x < |units|
      ensures units[x].tiles == 0
    {
      assert GoodChain(p, chains[x]) && UnitFor(p, owner, chains[x], units[x]);
      ChainsDisjoint(part, chains, x, x, chains[x][0]);
    }
  }

  lemma TilesMakeEntries(p: Program, owner: seq<nat>, part: seq<nat>, units: seq<Unit>, n: pos, i: nat)
    requires CleanPhase(p, part) && UnitsFor(p, owner, part, units) && i in part && Tiles(p.tg, p.instrs[i]) > 0
    ensures SomeEntry(Packed(units, n))
  {
    hide UnitsFor, Packed, CleanPhase;
    PackedBag(p, owner, part, units, n);
    CleanInRange(p, part);
    PhaseStepsCount(p, part, Step(i, 0));
    assert i in multiset(part);
    var lanes := PackedSteps(owner, units, n);
    assert Step(i, 0) in Bag(lanes);
    if forall L | 0 <= L < n :: Packed(units, n)[L] == [] {
      forall L | 0 <= L < |lanes|
        ensures lanes[L] == []
      {
        assert Packed(units, n)[L] == [];
      }
      BagOfEmpty(lanes);
    }
  }

  lemma PackedHasEntries(p: Program, owner: seq<nat>, part: seq<nat>, units: seq<Unit>, n: pos)
    requires CleanPhase(p, part) && UnitsFor(p, owner, part, units)
    ensures SomeEntry(Packed(units, n)) <==> HasTile(p, part)
  {
    if HasTile(p, part) {
      var x :| 0 <= x < |part| && Tiles(p.tg, p.instrs[part[x]]) > 0;
      TilesMakeEntries(p, owner, part, units, n, part[x]);
    } else {
      hide CleanPhase, UnitsFor, HasTile;
      UnitsWithoutTiles(p, owner, part, units);
      NothingPacked(units, n);
      hide Packed;
    }
  }

  lemma NothingPacked(units: seq<Unit>, n: pos)
    requires forall x | 0 <= x < |units| :: units[x].tiles == 0
    ensures forall L | 0 <= L < n :: Packed(units, n)[L] == []
  {
    NoTilesNoParts(units, 0, n, Divisor(units));
    assert SortedChunks(units, n) == [];
    hide PartsOfAll;
  }
}
