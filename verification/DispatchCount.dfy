/** The static dispatch count: a walk over nested regions that weighs a fixed-trip loop by its
    trips and an If by its longer branch, and what it says about a run. */
module DispatchCount {
  import Arith
  import opened Isa
  import opened Interleave
  import opened OnePhase
  import opened Reference
  import opened Levels
  import opened PhaseCount
  import opened Layout
  import opened Scheduler
  import opened Engine
  import opened RoundLaws
  import opened Simulation
  import opened HostRoom
  import opened EndToEnd

  /** The dispatches of a range. Nesting stops at the interpreter's bound. */
  function WalkRange(p: Program, r: (nat, nat), depth: nat): nat
    requires depth <= MAX_DEPTH + 1
    decreases MAX_DEPTH + 1 - depth, 2, 0
  {
    if depth > MAX_DEPTH || r.0 + r.1 > |p.instrs| then 0 else WalkLevels(p, LevelsFrom(p, [], Range(r.0, r.1)), depth)
  }

  function WalkLevels(p: Program, levels: seq<Level>, depth: nat): nat
    requires depth <= MAX_DEPTH
    decreases MAX_DEPTH + 1 - depth, 1, |levels|
  {
    if levels == [] then 0
    else WalkLevels(p, levels[..|levels| - 1], depth) + WalkLevel(p, levels[|levels| - 1], depth)
  }

  function WalkLevel(p: Program, level: Level, depth: nat): nat
    requires depth <= MAX_DEPTH
    decreases MAX_DEPTH + 1 - depth, 0, 0
  {
    match level
    case Compute(_) => 1
    case Region(i) =>
      if i >= |p.instrs| then 0
      else
        var first, second := WalkRange(p, FirstRange(p.instrs[i]), depth + 1),
            WalkRange(p, SecondRange(p.instrs[i]), depth + 1);
        match p.instrs[i].op
        case For => second * p.instrs[i].b
        case If => Max(first, second)
        case _ => first + second
  }

  /** The walk as it is performed. */
  method Walk(p: Program, r: (nat, nat), depth: nat) returns (dispatches: nat)
    requires depth <= MAX_DEPTH + 1
    ensures dispatches == WalkRange(p, r, depth)
    decreases MAX_DEPTH + 1 - depth
  {
    dispatches := 0;
    if depth > MAX_DEPTH || r.0 + r.1 > |p.instrs| {
      return;
    }
    var levels := BuildLevels(p, Range(r.0, r.1));
    var k := 0;
    while k < |levels|
      invariant 0 <= k <= |levels| && dispatches == WalkLevels(p, levels[..k], depth)
    {
      assert levels[..k + 1][..k] == levels[..k];
      match levels[k] {
        case Compute(_) =>
          dispatches := dispatches + 1;
        case Region(i) =>
          if i < |p.instrs| {
            var first := Walk(p, FirstRange(p.instrs[i]), depth + 1);
            var second := Walk(p, SecondRange(p.instrs[i]), depth + 1);
            if p.instrs[i].op == For {
              dispatches := dispatches + second * p.instrs[i].b;
            } else if p.instrs[i].op == If {
              dispatches := dispatches + Max(first, second);
            } else {
              dispatches := dispatches + first + second;
            }
          }
      }
      k := k + 1;
    }
    assert levels[..k] == levels;
  }

  // ----- programs without condition loops -----------------------------------------------------

  /** Every region reachable from the range is one of `ops`. */
  predicate Uses(p: Program, r: (nat, nat), depth: nat, ops: set<Op>)
    requires depth <= MAX_DEPTH
    decreases MAX_DEPTH - depth, 1
  {
    && r.0 + r.1 <= |p.instrs|
    && forall i: nat | r.0 <= i < r.0 + r.1 :: InstrUses(p, i, depth, ops)
  }

  predicate InstrUses(p: Program, i: nat, depth: nat, ops: set<Op>)
    requires depth <= MAX_DEPTH && i < |p.instrs|
    decreases MAX_DEPTH - depth, 0
  {
    var ins := p.instrs[i];
    && (ins.IsCompute() ==> Schedulable(p.tg, ins))
    && (ins.IsRegion() ==>
          && ins.op in ops && depth < MAX_DEPTH
          && Uses(p, FirstRange(ins), depth + 1, ops) && Uses(p, SecondRange(ins), depth + 1, ops))
  }

  predicate ListUses(p: Program, indices: seq<nat>, depth: nat, ops: set<Op>)
    requires depth <= MAX_DEPTH
  {
    forall x | 0 <= x < |indices| :: indices[x] < |p.instrs| && InstrUses(p, indices[x], depth, ops)
  }

  lemma {:induction false} UsesNested(p: Program, r: (nat, nat), depth: nat, ops: set<Op>)
    requires depth <= MAX_DEPTH && Uses(p, r, depth, ops)
    ensures Nested(p, r, depth)
    decreases MAX_DEPTH - depth
  {
    forall i: nat | r.0 <= i < r.0 + r.1
      ensures InstrNested(p, i, depth)
    {
      assert InstrUses(p, i, depth, ops);
      if p.instrs[i].IsRegion() {
        UsesNested(p, FirstRange(p.instrs[i]), depth + 1, ops);
        UsesNested(p, SecondRange(p.instrs[i]), depth + 1, ops);
      }
    }
  }

  /** Without condition loops the interpreter finishes, on any fuel. */
  lemma {:induction false} RangeEnds(p: Program, dev: Device, r: (nat, nat), depth: nat, fuel: nat, m: Mem)
    requires depth <= MAX_DEPTH && Uses(p, r, depth, {For, If}) && dev.walker == Simulator
    ensures EvalRange(p, dev, r, depth, fuel, m).Done?
    decreases MAX_DEPTH + 1 - depth, 3, 0
  {
    ListEnds(p, dev, Range(r.0, r.1), depth, fuel, m);
  }

  lemma {:induction false} ListEnds(p: Program, dev: Device, indices: seq<nat>, depth: nat, fuel: nat, m: Mem)
    requires depth <= MAX_DEPTH && ListUses(p, indices, depth, {For, If}) && dev.walker == Simulator
    ensures EvalList(p, dev, indices, depth, fuel, m).Done?
    decreases MAX_DEPTH + 1 - depth, 2, |indices|
  {
    if indices == [] {
    } else {
      var ins := p.instrs[indices[0]];
      assert InstrUses(p, indices[0], depth, {For, If});
      match ins.op {
        case For => TripsEnd(p, dev, ins, Trips(dev.walker, ins.b), depth, fuel, m);
        case If => RangeEnds(p, dev, Selected(ins, m), depth + 1, fuel, m);
        case _ =>
      }
      ListEnds(p, dev, indices[1..], depth, fuel, EvalInstr(p, dev, indices[0], depth, fuel, m).mem);
    }
  }

  lemma {:induction false} TripsEnd(p: Program, dev: Device, ins: Instr, trips: nat, depth: nat, fuel: nat, m: Mem)
    requires depth < MAX_DEPTH && Uses(p, SecondRange(ins), depth + 1, {For, If}) && dev.walker == Simulator
    ensures EvalFor(p, dev, ins, trips, depth, fuel, m).Done?
    decreases MAX_DEPTH + 1 - depth, 0, trips
  {
    if trips == 0 {
    } else {
      RangeEnds(p, dev, SecondRange(ins), depth + 1, fuel, m);
      TripsEnd(p, dev, ins, trips - 1, depth, fuel, EvalRange(p, dev, SecondRange(ins), depth + 1, fuel, m).mem);
    }
  }

  predicate LevelUses(p: Program, level: Level, depth: nat, ops: set<Op>)
    requires depth <= MAX_DEPTH
  {
    match level
    case Compute(part) => part != [] && AllSchedulable(p, part)
    case Region(i) => i < |p.instrs| && p.instrs[i].IsRegion() && InstrUses(p, i, depth, ops)
  }

  lemma LevelsUse(p: Program, r: (nat, nat), depth: nat, ops: set<Op>)
    requires depth <= MAX_DEPTH && Uses(p, r, depth, ops)
    ensures InRange(p, Range(r.0, r.1))
    ensures forall x | 0 <= x < |LevelsFrom(p, [], Range(r.0, r.1))| ::
        LevelUses(p, LevelsFrom(p, [], Range(r.0, r.1))[x], depth, ops)
  {
    var levels := LevelsFrom(p, [], Range(r.0, r.1));
    UsesNested(p, r, depth, ops);
    RangeLevels(p, r, depth, levels);
    forall x | 0 <= x < |levels|
      ensures LevelUses(p, levels[x], depth, ops)
    {
      assert LevelOk(p, levels[x]);
      if levels[x].Region? {
        RegionMember(levels, x);
        LiveMember(p, Range(r.0, r.1), levels[x].idx);
        assert InstrUses(p, levels[x].idx, depth, ops);
      }
    }
  }

  lemma {:induction false} WalkFirst(p: Program, levels: seq<Level>, depth: nat)
    requires depth <= MAX_DEPTH && levels != []
    ensures WalkLevels(p, levels, depth) == WalkLevel(p, levels[0], depth) + WalkLevels(p, levels[1..], depth)
    decreases |levels|
  {
    if |levels| == 1 {
      assert levels[..0] == [] && levels[1..] == [];
    } else {
      var k := |levels| - 1;
      WalkFirst(p, levels[..k], depth);
      assert levels[..k][1..] == levels[1..][..k - 1];
    }
  }

  // ----- the walk bounds every run ----------------------------------------------------------------

  /** Whatever the limits, a run never passes more phases than the walk counts. */
  lemma {:induction false} RunsWithinWalk(p: Program, dev: Device, r: (nat, nat), depth: nat, fuel: nat, m: Mem)
    requires depth <= MAX_DEPTH && Uses(p, r, depth, {For, If})
    ensures RangeRun(p, dev, r, depth, fuel, m) <= WalkRange(p, r, depth)
    decreases MAX_DEPTH + 1 - depth, 3, 0
  {
    LevelsUse(p, r, depth, {For, If});
    LevelsWithinWalk(p, dev, LevelsFrom(p, [], Range(r.0, r.1)), depth, fuel, m);
  }

  lemma {:induction false} LevelsWithinWalk(p: Program, dev: Device, levels: seq<Level>, depth: nat, fuel: nat, m: Mem)
    requires depth <= MAX_DEPTH && forall x | 0 <= x < |levels| :: LevelUses(p, levels[x], depth, {For, If})
    ensures LevelsRun(p, dev, levels, depth, fuel, m) <= WalkLevels(p, levels, depth)
    decreases MAX_DEPTH + 1 - depth, 2, |levels|
  {
    if levels == [] {
    } else {
      assert LevelUses(p, levels[0], depth, {For, If});
      WalkFirst(p, levels, depth);
      LevelWithinWalk(p, dev, levels[0], depth, fuel, m);
      var first := EvalList(p, dev, InstrsOf(levels[0]), depth, fuel, m);
      if first.Done? {
        LevelsWithinWalk(p, dev, levels[1..], depth, fuel, first.mem);
      }
    }
  }

  lemma FewerTrips(kind: Walker, count: nat)
    ensures Trips(kind, count) <= count
  {
  }

  lemma {:induction false} LevelWithinWalk(p: Program, dev: Device, level: Level, depth: nat, fuel: nat, m: Mem)
    requires depth <= MAX_DEPTH && LevelUses(p, level, depth, {For, If})
    ensures LevelRun(p, dev, level, depth, fuel, m) <= WalkLevel(p, level, depth)
    decreases MAX_DEPTH + 1 - depth, 1, 0
  {
    hide Trips;
    if level.Region? {
      var ins := p.instrs[level.idx];
      if ins.op == For {
        var trips, body := Trips(dev.walker, ins.b), WalkRange(p, SecondRange(ins), depth + 1);
        TripsWithinWalk(p, dev, ins, trips, depth, fuel, m);
        FewerTrips(dev.walker, ins.b);
        Arith.MulMonotone(trips, ins.b, body);
        assert body * trips == trips * body && body * ins.b == ins.b * body;
      } else {
        RunsWithinWalk(p, dev, Selected(ins, m), depth + 1, fuel, m);
      }
    }
  }

  lemma {:induction false} TripsWithinWalk(p: Program, dev: Device, ins: Instr, trips: nat, depth: nat, fuel: nat,
                                           m: Mem)
    requires depth < MAX_DEPTH && Uses(p, SecondRange(ins), depth + 1, {For, If})
    ensures TripsRun(p, dev, ins, trips, depth, fuel, m) <= WalkRange(p, SecondRange(ins), depth + 1) * trips
    decreases MAX_DEPTH + 1 - depth, 0, trips
  {
    hide WalkRange, RangeRun, EvalRange, Uses;
    var body := WalkRange(p, SecondRange(ins), depth + 1);
    if trips == 0 {
    } else {
      RunsWithinWalk(p, dev, SecondRange(ins), depth + 1, fuel, m);
      var first := EvalRange(p, dev, SecondRange(ins), depth + 1, fuel, m);
      if first.Done? {
        TripsWithinWalk(p, dev, ins, trips - 1, depth, fuel, first.mem);
      }
      assert body * trips == body + body * (trips - 1);
    }
  }

  // ----- when the walk is exact ---------------------------------------------------------------------

  /** Every level of the range has a tile, and so has every level of a loop body that is run. */
  predicate RangeTiled(p: Program, r: (nat, nat), depth: nat)
    requires depth <= MAX_DEPTH
    decreases MAX_DEPTH - depth, 1
  {
    && r.0 + r.1 <= |p.instrs|
    && var levels := LevelsFrom(p, [], Range(r.0, r.1));
       forall x | 0 <= x < |levels| :: LevelTiled(p, levels[x], depth)
  }

  predicate LevelTiled(p: Program, level: Level, depth: nat)
    requires depth <= MAX_DEPTH
    decreases MAX_DEPTH - depth, 0
  {
    match level
    case Compute(part) => HasTile(p, part)
    case Region(i) =>
      i < |p.instrs| && p.instrs[i].op == For && p.instrs[i].b > 0 ==>
        depth < MAX_DEPTH && RangeTiled(p, SecondRange(p.instrs[i]), depth + 1)
  }

  lemma {:induction false} UsesMore(p: Program, r: (nat, nat), depth: nat)
    requires depth <= MAX_DEPTH && Uses(p, r, depth, {For})
    ensures Uses(p, r, depth, {For, If})
    decreases MAX_DEPTH - depth, 1
  {
    forall i: nat | r.0 <= i < r.0 + r.1
      ensures InstrUses(p, i, depth, {For, If})
    {
      InstrUsesMore(p, i, depth);
    }
  }

  lemma {:induction false} InstrUsesMore(p: Program, i: nat, depth: nat)
    requires depth <= MAX_DEPTH && i < |p.instrs| && InstrUses(p, i, depth, {For})
    ensures InstrUses(p, i, depth, {For, If})
    decreases MAX_DEPTH - depth, 0
  {
    if p.instrs[i].IsRegion() {
      UsesMore(p, FirstRange(p.instrs[i]), depth + 1);
      UsesMore(p, SecondRange(p.instrs[i]), depth + 1);
    }
  }

  lemma LevelEnds(p: Program, dev: Device, level: Level, depth: nat, fuel: nat, m: Mem)
    requires depth <= MAX_DEPTH && LevelUses(p, level, depth, {For}) && dev.walker == Simulator
    ensures EvalList(p, dev, InstrsOf(level), depth, fuel, m).Done?
  {
    match level {
      case Compute(part) => EvalCompute(p, dev, part, depth, fuel, m);
      case Region(i) =>
        InstrUsesMore(p, i, depth);
        ListEnds(p, dev, [i], depth, fuel, m);
    }
  }

  /** With fixed-trip loops as the only regions, a run passes exactly as many phases as the walk
      counts if and only if every level that is run has a tile. */
  lemma {:induction false} WalkExact(p: Program, dev: Device, r: (nat, nat), depth: nat, fuel: nat, m: Mem)
    requires depth <= MAX_DEPTH && Uses(p, r, depth, {For}) && dev.walker == Simulator
    ensures RangeRun(p, dev, r, depth, fuel, m) == WalkRange(p, r, depth) <==> RangeTiled(p, r, depth)
    decreases MAX_DEPTH + 1 - depth, 3, 0
  {
    LevelsUse(p, r, depth, {For});
    LevelsExact(p, dev, LevelsFrom(p, [], Range(r.0, r.1)), depth, fuel, m);
  }

  lemma {:induction false} LevelsExact(p: Program, dev: Device, levels: seq<Level>, depth: nat, fuel: nat, m: Mem)
    requires depth <= MAX_DEPTH && (forall x | 0 <= x < |levels| :: LevelUses(p, levels[x], depth, {For}))
    requires dev.walker == Simulator
    ensures LevelsRun(p, dev, levels, depth, fuel, m) <= WalkLevels(p, levels, depth)
    ensures LevelsRun(p, dev, levels, depth, fuel, m) == WalkLevels(p, levels, depth) <==>
            forall x | 0 <= x < |levels| :: LevelTiled(p, levels[x], depth)
    decreases MAX_DEPTH + 1 - depth, 2, |levels|
  {
    hide LevelTiled, LevelUses, WalkLevel, LevelRun;
    if levels == [] {
    } else {
      WalkFirst(p, levels, depth);
      LevelExact(p, dev, levels[0], depth, fuel, m);
      LevelEnds(p, dev, levels[0], depth, fuel, m);
      LevelsExact(p, dev, levels[1..], depth, fuel, EvalList(p, dev, InstrsOf(levels[0]), depth, fuel, m).mem);
      assert forall x | 0 < x < |levels| :: levels[x] == levels[1..][x - 1];
    }
  }

  lemma {:induction false} LevelExact(p: Program, dev: Device, level: Level, depth: nat, fuel: nat, m: Mem)
    requires depth <= MAX_DEPTH && LevelUses(p, level, depth, {For}) && dev.walker == Simulator
    ensures LevelRun(p, dev, level, depth, fuel, m) <= WalkLevel(p, level, depth)
    ensures LevelRun(p, dev, level, depth, fuel, m) == WalkLevel(p, level, depth) <==> LevelTiled(p, level, depth)
    decreases MAX_DEPTH + 1 - depth, 1, 0
  {
    hide HasTile;
    if level.Region? {
      var ins := p.instrs[level.idx];
      TripsExact(p, dev, ins, ins.b, depth, fuel, m);
    }
  }

  lemma {:induction false} TripsExact(p: Program, dev: Device, ins: Instr, trips: nat, depth: nat, fuel: nat, m: Mem)
    requires depth < MAX_DEPTH && Uses(p, SecondRange(ins), depth + 1, {For}) && dev.walker == Simulator
    ensures TripsRun(p, dev, ins, trips, depth, fuel, m) <= WalkRange(p, SecondRange(ins), depth + 1) * trips
    ensures TripsRun(p, dev, ins, trips, depth, fuel, m) == WalkRange(p, SecondRange(ins), depth + 1) * trips <==>
            (trips > 0 ==> RangeTiled(p, SecondRange(ins), depth + 1))
    decreases MAX_DEPTH + 1 - depth, 0, trips
  {
    hide WalkRange, RangeRun, EvalRange, Uses, RangeTiled;
    UsesMore(p, SecondRange(ins), depth + 1);
    if trips == 0 {
    } else {
      var body := WalkRange(p, SecondRange(ins), depth + 1);
      WalkExact(p, dev, SecondRange(ins), depth + 1, fuel, m);
      RunsWithinWalk(p, dev, SecondRange(ins), depth + 1, fuel, m);
      RangeEnds(p, dev, SecondRange(ins), depth + 1, fuel, m);
      TripsExact(p, dev, ins, trips - 1, depth, fuel, EvalRange(p, dev, SecondRange(ins), depth + 1, fuel, m).mem);
      assert body * trips == body + body * (trips - 1);
    }
  }

  // ----- what the engines launch --------------------------------------------------------------------

  /** An engine that halts on a program without condition loops has launched at most as many batches
      as the walk counts. Where its limits are not felt it does halt; and with fixed-trip loops as the
      only control it has then launched exactly as many if and only if every level that is run has a
      tile. */
  lemma DispatchesCounted(p: Program, n: Arith.pos, dev: Device, s: Schedule, owner: seq<nat>, blocks: seq<Block>,
                          jobs: seq<Job>, pick: (nat, seq<seq<Step>>) -> seq<nat>, m: Mem)
    requires Built(p, n, s, owner, blocks, jobs) && KernelsOk(p, dev) && ViewsSafe(p)
    requires Uses(p, (0, p.mainLen), 0, {For, If})
    requires PickOk(Machine(dev.walker, dev, s.tasks, s.laneStreams, pick))
    ensures var mc, walk := Machine(dev.walker, dev, s.tasks, s.laneStreams, pick), WalkRange(p, (0, p.mainLen), 0);
            && StateOk(mc, Initial(s, m))
            && (forall rounds: nat | Rounds(mc, Initial(s, m), rounds).Halted? ::
                  Rounds(mc, Initial(s, m), rounds).launched <= walk)
            && (Unfelt(p, dev) ==>
                  exists launched: nat, m' ::
                    && HaltsWith(mc, Initial(s, m), m', launched)
                    && (Uses(p, (0, p.mainLen), 0, {For}) ==> (launched == walk <==> RangeTiled(p, (0, p.mainLen), 0))))
  {
    var mc, root := Machine(dev.walker, dev, s.tasks, s.laneStreams, pick), (0, p.mainLen);
    hide Built, KernelsOk, ViewsSafe, PickOk, Uses, WalkRange, RangeRun, EvalRange, Rounds, Matches, HaltsWith,
        Segmented, StateOk, Unfelt, RangeTiled;
    EngineIsReference(p, n, dev, s, owner, blocks, jobs, pick, 0, m);
    forall rounds: nat | Rounds(mc, Initial(s, m), rounds).Halted?
      ensures Rounds(mc, Initial(s, m), rounds).launched <= WalkRange(p, root, 0)
    {
      EngineIsReference(p, n, dev, s, owner, blocks, jobs, pick, rounds, m);
      RunsWithinWalk(p, dev, root, 0, rounds, m);
    }
    if Unfelt(p, dev) {
      var free := Unlimited(dev);
      RangeEnds(p, free, root, 0, 0, m);
      ScheduleIsReference(p, n, dev, s, owner, blocks, jobs, pick, 0, m);
      var m', launched := Execute(p, free, 0, m).mem, PhasesRun(p, free, 0, m);
      if Uses(p, root, 0, {For}) {
        WalkExact(p, free, root, 0, 0, m);
      }
      assert HaltsWith(mc, Initial(s, m), m', launched);
    }
  }
}
