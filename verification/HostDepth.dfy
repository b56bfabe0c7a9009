/** Where the host engine parts from the interpreter. With fixed-trip loops as the only control and
    work in every loop it is right exactly when it does not feel its limits; otherwise it halts
    early and reports nothing. */
module HostDepth {
  import opened Arith
  import opened Isa
  import opened Interleave
  import opened Streams
  import opened OnePhase
  import opened Reference
  import opened Levels
  import opened PhaseCount
  import opened Layout
  import opened Scheduler
  import opened Engine
  import opened RoundLaws
  import opened Simulation
  import opened HostRoom
  import opened EndToEnd
  import opened DispatchCount

  // ----- fixed-trip loops ---------------------------------------------------------------------------

  /** The range has work in it: an instruction with a tile, or a loop around work. */
  predicate Works(p: Program, r: (nat, nat), depth: nat)
    requires depth <= MAX_DEPTH
    decreases MAX_DEPTH - depth, 1
  {
    exists i: nat :: r.0 <= i < r.0 + r.1 && i < |p.instrs| && InstrWorks(p, i, depth)
  }

  predicate InstrWorks(p: Program, i: nat, depth: nat)
    requires depth <= MAX_DEPTH && i < |p.instrs|
    decreases MAX_DEPTH - depth, 0
  {
    var ins := p.instrs[i];
    || (Schedulable(p.tg, ins) && Tiles(p.tg, ins) > 0)
    || (ins.op == For && ins.b > 0 && depth < MAX_DEPTH && Works(p, SecondRange(ins), depth + 1))
  }

  /** Every loop that is entered has work in its body. */
  predicate LoopsWork(p: Program, r: (nat, nat), depth: nat)
    requires depth <= MAX_DEPTH
    decreases MAX_DEPTH - depth, 1
  {
    forall i: nat | r.0 <= i < r.0 + r.1 && i < |p.instrs| :: InstrLoopsWork(p, i, depth)
  }

  predicate InstrLoopsWork(p: Program, i: nat, depth: nat)
    requires depth <= MAX_DEPTH && i < |p.instrs|
    decreases MAX_DEPTH - depth, 0
  {
    var ins := p.instrs[i];
    ins.op == For && ins.b > 0 && depth < MAX_DEPTH ==>
      Works(p, SecondRange(ins), depth + 1) && LoopsWork(p, SecondRange(ins), depth + 1)
  }

  predicate LevelWorks(p: Program, level: Level, depth: nat)
    requires depth <= MAX_DEPTH
  {
    match level
    case Compute(part) => HasTile(p, part)
    case Region(i) => i < |p.instrs| && InstrWorks(p, i, depth)
  }

  lemma {:induction false} LevelFinds(levels: seq<Level>, i: nat) returns (x: nat)
    requires i in LevelInstrs(levels)
    ensures x < |levels| && i in InstrsOf(levels[x])
  {
    if i in InstrsOf(levels[0]) {
      x := 0;
    } else {
      x := LevelFinds(levels[1..], i);
      x := x + 1;
    }
  }

  /** Work in a range is work at one of its levels. */
  lemma WorkAtLevel(p: Program, r: (nat, nat), depth: nat) returns (x: nat)
    requires depth <= MAX_DEPTH && Nested(p, r, depth) && Works(p, r, depth)
    ensures InRange(p, Range(r.0, r.1)) && x < |LevelsFrom(p, [], Range(r.0, r.1))|
    ensures LevelWorks(p, LevelsFrom(p, [], Range(r.0, r.1))[x], depth)
  {
    var indices := Range(r.0, r.1);
    var levels := LevelsFrom(p, [], indices);
    RangeLevels(p, r, depth, levels);
    hide LevelsFrom, Live, Nested, LevelFits;
    var i: nat :| r.0 <= i < r.0 + r.1 && i < |p.instrs| && InstrWorks(p, i, depth);
    assert indices[i - r.0] == i;
    LiveKeeps(p, indices, i);
    x := LevelFinds(levels, i);
    hide Works;
    assert LevelOk(p, levels[x]);
  }

  /** Work is run, where the limits are not felt. */
  lemma {:induction false} WorkRuns(p: Program, dev: Device, r: (nat, nat), depth: nat, fuel: nat, m: Mem)
    requires depth <= MAX_DEPTH && Uses(p, r, depth, {For}) && Works(p, r, depth) && dev.walker == Simulator
    ensures RangeRun(p, dev, r, depth, fuel, m) > 0
    decreases MAX_DEPTH + 1 - depth, 1, 0
  {
    hide Works;
    UsesNested(p, r, depth, {For});
    var x := WorkAtLevel(p, r, depth);
    LevelsUse(p, r, depth, {For});
    LevelsWork(p, dev, LevelsFrom(p, [], Range(r.0, r.1)), x, depth, fuel, m);
  }

  lemma {:induction false} LevelsWork(p: Program, dev: Device, levels: seq<Level>, x: nat, depth: nat, fuel: nat,
                                      m: Mem)
    requires depth <= MAX_DEPTH && (forall y | 0 <= y < |levels| :: LevelUses(p, levels[y], depth, {For}))
    requires x < |levels| && LevelWorks(p, levels[x], depth) && dev.walker == Simulator
    ensures LevelsRun(p, dev, levels, depth, fuel, m) > 0
    decreases MAX_DEPTH + 1 - depth, 0, x
  {
    hide Works, RangeRun, SecondRange, Uses, EvalList, HasTile;
    assert LevelUses(p, levels[0], depth, {For});
    if x == 0 {
      hide Works;
      if levels[0].Region? {
        var ins := p.instrs[levels[0].idx];
        AllTrips(Simulator, ins.b);
        assert TripsRun(p, dev, ins, ins.b, depth, fuel, m) >= RangeRun(p, dev, SecondRange(ins), depth + 1, fuel, m);
        WorkRuns(p, dev, SecondRange(ins), depth + 1, fuel, m);
      }
    } else {
      hide LevelWorks, LevelUses, LevelRun;
      LevelEnds(p, dev, levels[0], depth, fuel, m);
      LevelsWork(p, dev, levels[1..], x - 1, depth, fuel, EvalList(p, dev, InstrsOf(levels[0]), depth, fuel, m).mem);
    }
  }

  // ----- the host engine runs less ------------------------------------------------------------------

  predicate LevelLoops(p: Program, level: Level, depth: nat)
    requires depth <= MAX_DEPTH
  {
    level.Region? ==> level.idx < |p.instrs| && InstrLoopsWork(p, level.idx, depth)
  }

  predicate LevelFitted(p: Program, level: Level, depth: nat)
    requires depth <= MAX_DEPTH
  {
    level.Region? ==> level.idx < |p.instrs| && InstrFits(p, level.idx, depth)
  }

  /** A range fits when all its levels do, and its loops work when those of its levels do. */
  lemma FitByLevels(p: Program, r: (nat, nat), depth: nat)
    requires depth <= MAX_DEPTH && Nested(p, r, depth)
    ensures InRange(p, Range(r.0, r.1))
    ensures var levels := LevelsFrom(p, [], Range(r.0, r.1));
            && ((forall x | 0 <= x < |levels| :: LevelFitted(p, levels[x], depth)) ==> Fits(p, r, depth))
            && (LoopsWork(p, r, depth) ==> forall x | 0 <= x < |levels| :: LevelLoops(p, levels[x], depth))
  {
    var indices := Range(r.0, r.1);
    var levels := LevelsFrom(p, [], indices);
    RangeLevels(p, r, depth, levels);
    hide LevelsFrom, Live, LevelFits, InstrFits, InstrLoopsWork, LevelInstrs, Nested, LevelOk, TaskOf;
    if forall x | 0 <= x < |levels| :: LevelFitted(p, levels[x], depth) {
      forall i: nat | r.0 <= i < r.0 + r.1
        ensures InstrFits(p, i, depth)
      {
        if p.instrs[i].IsRegion() {
          assert indices[i - r.0] == i;
          LiveKeeps(p, indices, i);
          var x := LevelFinds(levels, i);
          assert LevelOk(p, levels[x]) && LevelFitted(p, levels[x], depth);
        } else {
          PlainFits(p, i, depth);
        }
      }
    }
    if LoopsWork(p, r, depth) {
      forall x | 0 <= x < |levels|
        ensures LevelLoops(p, levels[x], depth)
      {
        if levels[x].Region? {
          RegionMember(levels, x);
          LiveMember(p, indices, levels[x].idx);
          assert InstrLoopsWork(p, levels[x].idx, depth);
        }
      }
    }
  }

  lemma PlainFits(p: Program, i: nat, depth: nat)
    requires depth <= MAX_DEPTH && i < |p.instrs| && !p.instrs[i].IsRegion()
    ensures InstrFits(p, i, depth)
  {
  }

  /** The interpreter finishes, or the host engine is cut short. */
  predicate Stopped(o: Outcome) {
    o.Done? || o.Truncated?
  }

  /** With fixed-trip loops only, nothing else can happen. */
  lemma {:induction false} RangeStops(p: Program, dev: Device, r: (nat, nat), depth: nat, fuel: nat, m: Mem)
    requires depth <= MAX_DEPTH && Uses(p, r, depth, {For})
    ensures Stopped(EvalRange(p, dev, r, depth, fuel, m))
    decreases MAX_DEPTH + 1 - depth, 3, 0
  {
    ListStops(p, dev, Range(r.0, r.1), depth, fuel, m);
  }

  lemma {:induction false} ListStops(p: Program, dev: Device, indices: seq<nat>, depth: nat, fuel: nat, m: Mem)
    requires depth <= MAX_DEPTH && ListUses(p, indices, depth, {For})
    ensures Stopped(EvalList(p, dev, indices, depth, fuel, m))
    decreases MAX_DEPTH + 1 - depth, 2, |indices|
  {
    if indices == [] {
    } else {
      var ins := p.instrs[indices[0]];
      assert InstrUses(p, indices[0], depth, {For});
      if ins.op == For {
        TripsStop(p, dev, ins, Trips(dev.walker, ins.b), depth, fuel, m);
      }
      var first := EvalInstr(p, dev, indices[0], depth, fuel, m);
      if first.Done? {
        ListStops(p, dev, indices[1..], depth, fuel, first.mem);
      }
    }
  }

  lemma {:induction false} TripsStop(p: Program, dev: Device, ins: Instr, trips: nat, depth: nat, fuel: nat, m: Mem)
    requires depth < MAX_DEPTH && Uses(p, SecondRange(ins), depth + 1, {For})
    ensures Stopped(EvalFor(p, dev, ins, trips, depth, fuel, m))
    decreases MAX_DEPTH + 1 - depth, 0, trips
  {
    if trips == 0 {
    } else {
      RangeStops(p, dev, SecondRange(ins), depth + 1, fuel, m);
      var first := EvalRange(p, dev, SecondRange(ins), depth + 1, fuel, m);
      if first.Done? {
        TripsStop(p, dev, ins, trips - 1, depth, fuel, first.mem);
      }
    }
  }

  /** Under the host engine's limits no more phases are run than without them, whatever the memories;
      and fewer if the limits are felt and every loop works. */
  lemma {:induction false} RunsLess(p: Program, dev: Device, r: (nat, nat), depth: nat, fuel: nat, m: Mem, m': Mem)
    requires depth <= MAX_DEPTH && Uses(p, r, depth, {For}) && dev.walker == HostDispatch
    ensures RangeRun(p, dev, r, depth, fuel, m) <= RangeRun(p, Unlimited(dev), r, depth, fuel, m')
    ensures LoopsWork(p, r, depth) && !Fits(p, r, depth) ==>
              RangeRun(p, dev, r, depth, fuel, m) < RangeRun(p, Unlimited(dev), r, depth, fuel, m')
    decreases MAX_DEPTH + 1 - depth, 3, 0
  {
    hide LevelFitted, LevelLoops, Fits, LoopsWork;
    UsesNested(p, r, depth, {For});
    LevelsUse(p, r, depth, {For});
    FitByLevels(p, r, depth);
    LevelsLess(p, dev, LevelsFrom(p, [], Range(r.0, r.1)), depth, fuel, m, m');
  }

  lemma {:induction false} LevelsLess(p: Program, dev: Device, levels: seq<Level>, depth: nat, fuel: nat, m: Mem,
                                      m': Mem)
    requires depth <= MAX_DEPTH && (forall x | 0 <= x < |levels| :: LevelUses(p, levels[x], depth, {For}))
    requires dev.walker == HostDispatch
    ensures LevelsRun(p, dev, levels, depth, fuel, m) <= LevelsRun(p, Unlimited(dev), levels, depth, fuel, m')
    ensures (forall x | 0 <= x < |levels| :: LevelLoops(p, levels[x], depth))
            && !(forall x | 0 <= x < |levels| :: LevelFitted(p, levels[x], depth)) ==>
              LevelsRun(p, dev, levels, depth, fuel, m) < LevelsRun(p, Unlimited(dev), levels, depth, fuel, m')
    decreases MAX_DEPTH + 1 - depth, 2, |levels|
  {
    hide LevelFitted, LevelLoops, LevelUses, LevelRun;
    if levels == [] {
    } else {
      assert LevelUses(p, levels[0], depth, {For});
      LevelLess(p, dev, levels[0], depth, fuel, m, m');
      LevelEnds(p, Unlimited(dev), levels[0], depth, fuel, m');
      if LevelFitted(p, levels[0], depth) {
        FittedEnds(p, dev, levels[0], depth, fuel, m);
      }
      var first := EvalList(p, dev, InstrsOf(levels[0]), depth, fuel, m);
      var free := EvalList(p, Unlimited(dev), InstrsOf(levels[0]), depth, fuel, m');
      assert forall x | 0 < x < |levels| :: levels[x] == levels[1..][x - 1];
      if first.Done? {
        LevelsLess(p, dev, levels[1..], depth, fuel, first.mem, free.mem);
      }
    }
  }

  lemma FittedEnds(p: Program, dev: Device, level: Level, depth: nat, fuel: nat, m: Mem)
    requires depth <= MAX_DEPTH && LevelUses(p, level, depth, {For}) && LevelFitted(p, level, depth)
    ensures EvalList(p, dev, InstrsOf(level), depth, fuel, m).Done?
  {
    hide InstrFits;
    LevelEnds(p, Unlimited(dev), level, depth, fuel, m);
    if level.Region? {
      InstrUsesNested(p, level.idx, depth);
      LevelSame(p, dev, level, depth, fuel, m);
    } else {
      EvalCompute(p, dev, level.part, depth, fuel, m);
    }
  }

  lemma InstrUsesNested(p: Program, i: nat, depth: nat)
    requires depth <= MAX_DEPTH && i < |p.instrs| && InstrUses(p, i, depth, {For})
    ensures InstrNested(p, i, depth)
  {
    if p.instrs[i].IsRegion() {
      UsesNested(p, FirstRange(p.instrs[i]), depth + 1, {For});
      UsesNested(p, SecondRange(p.instrs[i]), depth + 1, {For});
    }
  }

  /** A fixed-trip loop that is entered makes at least one trip on the host engine, and all its trips
      exactly when an int holds their count. */
  lemma LostTrips(count: nat)
    ensures Trips(HostDispatch, count) <= count
    ensures Trips(HostDispatch, count) == count <==> count < INT_LIMIT
    ensures count > 0 ==> Trips(HostDispatch, count) > 0
  {
  }

  lemma {:induction false} LevelLess(p: Program, dev: Device, level: Level, depth: nat, fuel: nat, m: Mem, m': Mem)
    requires depth <= MAX_DEPTH && LevelUses(p, level, depth, {For}) && dev.walker == HostDispatch
    ensures LevelRun(p, dev, level, depth, fuel, m) <= LevelRun(p, Unlimited(dev), level, depth, fuel, m')
    ensures LevelLoops(p, level, depth) && !LevelFitted(p, level, depth) ==>
              LevelRun(p, dev, level, depth, fuel, m) < LevelRun(p, Unlimited(dev), level, depth, fuel, m')
    decreases MAX_DEPTH + 1 - depth, 1, 0
  {
    hide Works, LoopsWork, Trips, Fits, HasTile;
    if level.Region? {
      var ins := p.instrs[level.idx];
      AllTrips(Simulator, ins.b);
      if NoTrips(ins) {
        AllTrips(HostDispatch, 0);
      } else if Cramped(dev, depth) {
        if LevelLoops(p, level, depth) {
          WorkRuns(p, Unlimited(dev), SecondRange(ins), depth + 1, fuel, m');
        }
      } else {
        LostTrips(ins.b);
        TripsLess(p, dev, ins, Trips(HostDispatch, ins.b), ins.b, depth, fuel, m, m');
      }
    }
  }

  lemma {:induction false} TripsLess(p: Program, dev: Device, ins: Instr, trips: nat, free: nat, depth: nat, fuel: nat,
                                     m: Mem, m': Mem)
    requires depth < MAX_DEPTH && Uses(p, SecondRange(ins), depth + 1, {For}) && dev.walker == HostDispatch
    requires trips <= free
    ensures TripsRun(p, dev, ins, trips, depth, fuel, m) <= TripsRun(p, Unlimited(dev), ins, free, depth, fuel, m')
    ensures Works(p, SecondRange(ins), depth + 1) && LoopsWork(p, SecondRange(ins), depth + 1)
            && (trips < free || (trips > 0 && !Fits(p, SecondRange(ins), depth + 1))) ==>
              TripsRun(p, dev, ins, trips, depth, fuel, m) < TripsRun(p, Unlimited(dev), ins, free, depth, fuel, m')
    decreases MAX_DEPTH + 1 - depth, 0, trips
  {
    hide Works, LoopsWork, Fits, EvalRange, RangeRun;
    if trips == 0 {
      if free > 0 && Works(p, SecondRange(ins), depth + 1) {
        WorkRuns(p, Unlimited(dev), SecondRange(ins), depth + 1, fuel, m');
      }
    } else {
      RunsLess(p, dev, SecondRange(ins), depth + 1, fuel, m, m');
      BodyEnds(p, dev, ins, depth, fuel, m, m');
      var first := EvalRange(p, dev, SecondRange(ins), depth + 1, fuel, m);
      var other := EvalRange(p, Unlimited(dev), SecondRange(ins), depth + 1, fuel, m');
      if first.Done? {
        TripsLess(p, dev, ins, trips - 1, free - 1, depth, fuel, first.mem, other.mem);
      }
    }
  }

  lemma BodyEnds(p: Program, dev: Device, ins: Instr, depth: nat, fuel: nat, m: Mem, m': Mem)
    requires depth < MAX_DEPTH && Uses(p, SecondRange(ins), depth + 1, {For})
    ensures EvalRange(p, Unlimited(dev), SecondRange(ins), depth + 1, fuel, m').Done?
    ensures Fits(p, SecondRange(ins), depth + 1) ==> EvalRange(p, dev, SecondRange(ins), depth + 1, fuel, m).Done?
  {
    hide Fits, EvalRange, Nested, Uses;
    UsesMore(p, SecondRange(ins), depth + 1);
    UsesNested(p, SecondRange(ins), depth + 1, {For});
    RangeEnds(p, Unlimited(dev), SecondRange(ins), depth + 1, fuel, m');
    RangeEnds(p, Unlimited(dev), SecondRange(ins), depth + 1, fuel, m);
    if Fits(p, SecondRange(ins), depth + 1) {
      SameRange(p, dev, SecondRange(ins), depth + 1, fuel, m);
    }
  }

  // ----- exactly when the host engine is right --------------------------------------------------------

  /** Where its limits are felt the host engine halts early, with fewer batches launched than the
      interpreter runs phases, and reports nothing. */
  lemma HostFallsShort(p: Program, n: pos, dev: Device, s: Schedule, owner: seq<nat>, blocks: seq<Block>,
                       jobs: seq<Job>, pick: (nat, seq<seq<Step>>) -> seq<nat>, fuel: nat, m: Mem)
    returns (r: nat, m': Mem, launched: nat)
    requires Built(p, n, s, owner, blocks, jobs) && KernelsOk(p, dev) && ViewsSafe(p)
    requires Uses(p, (0, p.mainLen), 0, {For}) && LoopsWork(p, (0, p.mainLen), 0)
    requires dev.walker == HostDispatch && !Fits(p, (0, p.mainLen), 0)
    requires PickOk(Machine(HostDispatch, dev, s.tasks, s.laneStreams, pick))
    ensures HaltsAt(Machine(HostDispatch, dev, s.tasks, s.laneStreams, pick), Initial(s, m), r, m', launched)
    ensures launched < PhasesRun(p, Unlimited(dev), fuel, m)
  {
    hide Built, KernelsOk, ViewsSafe, PickOk, Uses, LoopsWork, Fits, EvalRange, RangeRun, HaltsAt, Rounds, Segmented,
        StateOk, CrashesAt, RunsFor;
    var mc, root := Machine(HostDispatch, dev, s.tasks, s.laneStreams, pick), (0, p.mainLen);
    EngineIsReference(p, n, dev, s, owner, blocks, jobs, pick, fuel, m);
    RangeStops(p, dev, root, 0, fuel, m);
    RunsLess(p, dev, root, 0, fuel, m, m);
    var o := Execute(p, dev, fuel, m);
    launched, m' := PhasesRun(p, dev, fuel, m), o.mem;
    r :| HaltsAt(mc, Initial(s, m), r, m', launched);
  }

  lemma HaltsOnce(mc: Machine, st: State, r: nat, m: Mem, launched: nat, m': Mem, other: nat)
    requires PickOk(mc) && HaltsAt(mc, st, r, m, launched) && other != launched
    ensures StateOk(mc, st) && !HaltsWith(mc, st, m', other)
  {
    hide Rounds, Segmented, StateOk;
    assert StateOk(mc, st);
    forall enough: nat
      ensures Rounds(mc, st, enough) != Halted(m', other)
    {
      assert Rounds(mc, st, enough) == (if enough < r then Running else Halted(m, launched));
    }
  }

  /** With fixed-trip loops as the only control and work in every loop, the host engine halts with
      the interpreter's memory and as many batches as the interpreter runs phases exactly when it
      has room for every loop that it comes to and its int holds their counts. */
  lemma HostExact(p: Program, n: pos, dev: Device, s: Schedule, owner: seq<nat>, blocks: seq<Block>, jobs: seq<Job>,
                  pick: (nat, seq<seq<Step>>) -> seq<nat>, fuel: nat, m: Mem)
    requires Built(p, n, s, owner, blocks, jobs) && KernelsOk(p, dev) && ViewsSafe(p) && dev.walker == HostDispatch
    requires Uses(p, (0, p.mainLen), 0, {For}) && LoopsWork(p, (0, p.mainLen), 0)
    requires PickOk(Machine(HostDispatch, dev, s.tasks, s.laneStreams, pick))
    ensures var mc, free := Machine(HostDispatch, dev, s.tasks, s.laneStreams, pick), Unlimited(dev);
            && StateOk(mc, Initial(s, m)) && Execute(p, free, fuel, m).Done?
            && (HaltsWith(mc, Initial(s, m), Execute(p, free, fuel, m).mem, PhasesRun(p, free, fuel, m)) <==>
              Fits(p, (0, p.mainLen), 0))
  {
    hide Built, KernelsOk, ViewsSafe, PickOk, Uses, LoopsWork, Fits, EvalRange, RangeRun, HaltsAt, Rounds, StateOk,
        HaltsWith;
    var mc, free, root := Machine(HostDispatch, dev, s.tasks, s.laneStreams, pick), Unlimited(dev), (0, p.mainLen);
    UsesMore(p, root, 0);
    RangeEnds(p, free, root, 0, fuel, m);
    if Fits(p, root, 0) {
      ScheduleIsReference(p, n, dev, s, owner, blocks, jobs, pick, fuel, m);
    } else {
      var r, m', launched := HostFallsShort(p, n, dev, s, owner, blocks, jobs, pick, fuel, m);
      HaltsOnce(mc, Initial(s, m), r, m', launched, Execute(p, free, fuel, m).mem, PhasesRun(p, free, fuel, m));
    }
  }

  /** With any control: when the interpreter finishes, the host engine halts with its memory and batch
      count exactly when the interpreter comes to both under the host engine's limits too. */
  lemma HostAgrees(p: Program, n: pos, dev: Device, s: Schedule, owner: seq<nat>, blocks: seq<Block>, jobs: seq<Job>,
                   pick: (nat, seq<seq<Step>>) -> seq<nat>, m: Mem, m': Mem, launched: nat)
    requires Built(p, n, s, owner, blocks, jobs) && KernelsOk(p, dev) && ViewsSafe(p) && dev.walker == HostDispatch
    requires PickOk(Machine(HostDispatch, dev, s.tasks, s.laneStreams, pick))
    ensures var mc := Machine(HostDispatch, dev, s.tasks, s.laneStreams, pick);
            && StateOk(mc, Initial(s, m))
            && (HaltsWith(mc, Initial(s, m), m', launched) <==>
              exists fuel: nat ::
                Execute(p, dev, fuel, m) in {Done(m'), Truncated(m')} && PhasesRun(p, dev, fuel, m) == launched)
  {
    hide Built, KernelsOk, ViewsSafe, PickOk, EvalRange, RangeRun, HaltsAt, Rounds, StateOk, CrashesAt, RunsFor,
        Segmented;
    var mc := Machine(HostDispatch, dev, s.tasks, s.laneStreams, pick);
    EngineIsReference(p, n, dev, s, owner, blocks, jobs, pick, 0, m);
    if enough: nat :| Rounds(mc, Initial(s, m), enough) == Halted(m', launched) {
      EngineIsReference(p, n, dev, s, owner, blocks, jobs, pick, enough, m);
    }
    if fuel: nat :| Execute(p, dev, fuel, m) in {Done(m'), Truncated(m')} && PhasesRun(p, dev, fuel, m) == launched {
      EngineIsReference(p, n, dev, s, owner, blocks, jobs, pick, fuel, m);
      var r: nat :| HaltsAt(mc, Initial(s, m), r, m', launched);
      HaltedAt(mc, Initial(s, m), r, m', launched);
    }
  }

  lemma HaltedAt(mc: Machine, st: State, r: nat, m: Mem, launched: nat)
    requires PickOk(mc) && HaltsAt(mc, st, r, m, launched)
    ensures StateOk(mc, st) && HaltsWith(mc, st, m, launched)
  {
    hide Rounds, Segmented;
    assert Rounds(mc, st, r) == Halted(m, launched);
  }

  // ----- nothing launched, nothing changed --------------------------------------------------------------

  lemma RoundUnlaunched(mc: Machine, st: State, round: nat)
    requires PickOk(mc) && StateOk(mc, st)
    ensures match Round(mc, st, round)
            case Stop(m, d) => d >= st.launched && (d == st.launched ==> m == st.mem)
            case Next(next) => next.launched >= st.launched && (next.launched == st.launched ==> next.mem == st.mem)
            case Fault => true
  {
    var ws := Walks(mc, st);
    hide Walks, AllResolve, SameToken, Resolved, RunBatch, PickOk;
    if AllStopped(ws) && BatchOk(mc, Batch(st, ws)) && !SomeEntry(Batch(st, ws)) {
      EmptyBatch(mc, Batch(st, ws), round, st.mem);
    }
  }

  /** A machine that halts without having launched anything has not changed the memory. */
  lemma {:induction false} UnlaunchedUnchanged(mc: Machine, st: State, left: nat)
    requires PickOk(mc) && StateOk(mc, st)
    ensures match Rounds(mc, st, left)
            case Halted(m, d) => d >= st.launched && (d == st.launched ==> m == st.mem)
            case _ => true
    decreases left
  {
    hide Round, StateOk, PickOk;
    if left == 0 {
    } else {
      RoundUnlaunched(mc, st, left);
      var t := Round(mc, st, left);
      if t.Next? {
        UnlaunchedUnchanged(mc, t.st, left - 1);
      }
    }
  }
}
