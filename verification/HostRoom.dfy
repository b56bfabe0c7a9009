/** When the host engine does not feel its limits: it has room for every region that it may come to,
    and its int holds every trip count. Then the limited interpreter is the interpreter. */
module HostRoom {
  import opened Isa
  import opened PhaseCut
  import opened OnePhase
  import opened Reference
  import opened Levels
  import opened PhaseCount
  import opened Scheduler

  // ----- ranges that leave all lanes empty --------------------------------------------------------

  /** Levels that no lane has an entry for. */
  predicate Idle(p: Program, levels: seq<Level>) {
    levels == [] || (|levels| == 1 && levels[0].Compute? && !HasTile(p, levels[0].part))
  }

  lemma {:induction false} OneCut(p: Program, seg: seq<nat>, rest: seq<nat>)
    requires InRange(p, seg) && InRange(p, rest) && forall x | 0 <= x < |rest| :: !p.instrs[rest[x]].IsRegion()
    ensures InRange(p, seg + Live(p, rest))
    ensures LevelsFrom(p, seg, rest) == ComputeLevels(Greedy(p, [], seg + Live(p, rest)))
    decreases |rest|
  {
    hide Greedy;
    if rest == [] {
      assert seg + [] == seg;
    } else if p.instrs[rest[0]].op == Nop {
      OneCut(p, seg, rest[1..]);
    } else {
      OneCut(p, seg + [rest[0]], rest[1..]);
      assert seg + [rest[0]] + Live(p, rest[1..]) == seg + Live(p, rest);
    }
  }

  predicate AnyRegion(p: Program, r: (nat, nat)) {
    exists i | r.0 <= i < r.0 + r.1 && i < |p.instrs| :: p.instrs[i].IsRegion()
  }

  lemma RegionsAreLevels(p: Program, r: (nat, nat), depth: nat)
    requires depth <= MAX_DEPTH && Nested(p, r, depth) && InRange(p, Range(r.0, r.1)) && AnyRegion(p, r)
    ensures !Idle(p, LevelsFrom(p, [], Range(r.0, r.1)))
  {
    var indices := Range(r.0, r.1);
    var levels := LevelsFrom(p, [], indices);
    RangeLevels(p, r, depth, levels);
    hide LevelsFrom, Live, Nested, LevelFits;
    var i :| r.0 <= i < r.0 + r.1 && i < |p.instrs| && p.instrs[i].IsRegion();
    assert indices[i - r.0] == i;
    LiveKeeps(p, indices, i);
    SoleLevel(p, levels);
  }

  lemma SoleLevel(p: Program, levels: seq<Level>)
    ensures LevelsOk(p, levels) && |levels| == 1 && levels[0].Compute? ==> AllSchedulable(p, LevelInstrs(levels))
  {
    if LevelsOk(p, levels) && |levels| == 1 && levels[0].Compute? {
      assert LevelOk(p, levels[0]) && levels[1..] == [];
      assert LevelInstrs(levels) == levels[0].part + LevelInstrs(levels[1..]) == levels[0].part;
    }
  }

  lemma CutLevels(p: Program, r: (nat, nat), depth: nat)
    requires depth <= MAX_DEPTH && Nested(p, r, depth) && InRange(p, Range(r.0, r.1)) && !AnyRegion(p, r)
    ensures var live := Live(p, Range(r.0, r.1));
            && LevelsFrom(p, [], Range(r.0, r.1)) == ComputeLevels(Greedy(p, [], live))
            && Flatten(Greedy(p, [], live)) == live
            && (|Greedy(p, [], live)| == 1 ==> Greedy(p, [], live) == [live] && AllSchedulable(p, live))
  {
    hide Greedy, LevelsFrom, Nested, LevelFits;
    var indices := Range(r.0, r.1);
    var live := Live(p, indices);
    OneCut(p, [], indices);
    assert [] + live == live;
    var parts := Greedy(p, [], live);
    GreedyCuts(p, [], live);
    RangeLevels(p, r, depth, ComputeLevels(parts));
    if |parts| == 1 {
      assert Flatten(parts) == parts[0] + Flatten(parts[1..]) == parts[0];
      assert LevelOk(p, ComputeLevels(parts)[0]);
    }
  }

  /** The live instructions have a tile exactly when some instruction of the range has. */
  lemma LiveTiles(p: Program, r: (nat, nat))
    requires InRange(p, Range(r.0, r.1)) && AllSchedulable(p, Live(p, Range(r.0, r.1)))
    ensures HasTile(p, Live(p, Range(r.0, r.1))) <==>
            exists i | r.0 <= i < r.0 + r.1 && i < |p.instrs| ::
              Schedulable(p.tg, p.instrs[i]) && Tiles(p.tg, p.instrs[i]) > 0
  {
    hide Tiles, TaskOf, Live;
    var indices := Range(r.0, r.1);
    var live := Live(p, indices);
    if HasTile(p, live) {
      var x :| 0 <= x < |live| && Tiles(p.tg, p.instrs[live[x]]) > 0;
      LiveMember(p, indices, live[x]);
      assert Schedulable(p.tg, p.instrs[live[x]]);
    }
    forall i | r.0 <= i < r.0 + r.1 && i < |p.instrs| && Schedulable(p.tg, p.instrs[i])
      ensures i in live
    {
      assert indices[i - r.0] == i;
      LiveKeeps(p, indices, i);
    }
  }

  /** A range is bare exactly when its levels leave all lanes empty. */
  lemma BareIdle(p: Program, r: (nat, nat), depth: nat)
    requires depth <= MAX_DEPTH && Nested(p, r, depth) && InRange(p, Range(r.0, r.1))
    ensures Bare(p, r) <==> Idle(p, LevelsFrom(p, [], Range(r.0, r.1)))
  {
    if AnyRegion(p, r) {
      RegionsAreLevels(p, r, depth);
    } else {
      CutLevels(p, r, depth);
      var live := Live(p, Range(r.0, r.1));
      hide Greedy, LevelsFrom, Nested, HasTile, Tiles, Schedulable, Live;
      if |Greedy(p, [], live)| <= 1 {
        LiveTiles(p, r);
      }
    }
  }

  // ----- enough room ------------------------------------------------------------------------------

  /** The host engine has room for every region that it may come to in the range, unless nothing is
      laid out there, and its int holds every trip count. A loop of no trips needs nothing. */
  predicate Fits(p: Program, r: (nat, nat), depth: nat)
    requires depth <= MAX_DEPTH
    decreases MAX_DEPTH - depth, 1
  {
    && r.0 + r.1 <= |p.instrs|
    && forall i: nat | r.0 <= i < r.0 + r.1 :: InstrFits(p, i, depth)
  }

  predicate InstrFits(p: Program, i: nat, depth: nat)
    requires depth <= MAX_DEPTH && i < |p.instrs|
    decreases MAX_DEPTH - depth, 0
  {
    var ins := p.instrs[i];
    if !ins.IsRegion() || NoTrips(ins) then true
    else if !CanNest(HostDispatch, depth) then ins.op == If && Bare(p, FirstRange(ins)) && Bare(p, SecondRange(ins))
    else
      && (ins.op == For ==> ins.b < INT_LIMIT)
      && (ins.op != For ==> Fits(p, FirstRange(ins), depth + 1)) && Fits(p, SecondRange(ins), depth + 1)
  }

  predicate ListFits(p: Program, indices: seq<nat>, depth: nat)
    requires depth <= MAX_DEPTH
  {
    forall x | 0 <= x < |indices| :: indices[x] < |p.instrs| && InstrFits(p, indices[x], depth)
  }

  predicate SmallCounts(p: Program) {
    forall i | 0 <= i < |p.instrs| && p.instrs[i].op == For :: p.instrs[i].b < INT_LIMIT
  }

  /** One level of nesting to spare is room enough. */
  lemma {:induction false} NestedFits(p: Program, r: (nat, nat), depth: nat)
    requires depth < MAX_DEPTH && Nested(p, r, depth + 1) && SmallCounts(p)
    ensures Fits(p, r, depth)
    decreases MAX_DEPTH - depth
  {
    forall i: nat | r.0 <= i < r.0 + r.1
      ensures InstrFits(p, i, depth)
    {
      assert InstrNested(p, i, depth + 1);
      if p.instrs[i].IsRegion() {
        NestedFits(p, FirstRange(p.instrs[i]), depth + 1);
        NestedFits(p, SecondRange(p.instrs[i]), depth + 1);
      }
    }
  }

  /** The same kernels under the interpreter's own limits. */
  function Unlimited(dev: Device): Device {
    dev.(walker := Simulator)
  }

  lemma {:induction false} SameDelta(dev: Device, t: Task, k: nat, m: Mem)
    ensures Delta(dev, t, k, m) == Delta(Unlimited(dev), t, k, m)
  {
    if k == 0 {
    } else {
      SameDelta(dev, t, k - 1, m);
    }
  }

  /** Neither a region nor a tile. */
  predicate Inert(p: Program, i: nat)
    requires i < |p.instrs|
  {
    !p.instrs[i].IsRegion() && (Schedulable(p.tg, p.instrs[i]) ==> Tiles(p.tg, p.instrs[i]) == 0)
  }

  /** A bare range does nothing. */
  lemma {:induction false} BareList(p: Program, dev: Device, indices: seq<nat>, depth: nat, fuel: nat, m: Mem)
    requires depth <= MAX_DEPTH && ListNested(p, indices, depth)
    requires forall x | 0 <= x < |indices| && indices[x] < |p.instrs| :: Inert(p, indices[x])
    ensures EvalList(p, dev, indices, depth, fuel, m) == Done(m)
    decreases |indices|
  {
    if indices == [] {
    } else {
      var ins := p.instrs[indices[0]];
      assert InstrNested(p, indices[0], depth);
      if ins.op != Nop {
        assert Whole(p, dev, indices[0], m) == m + map[] == m;
      }
      assert EvalInstr(p, dev, indices[0], depth, fuel, m) == Done(m);
      BareList(p, dev, indices[1..], depth, fuel, m);
    }
  }

  lemma IdleRuns(p: Program, dev: Device, levels: seq<Level>, depth: nat, fuel: nat, m: Mem)
    requires depth <= MAX_DEPTH && Idle(p, levels)
    ensures LevelsRun(p, dev, levels, depth, fuel, m) == 0
  {
    hide HasTile;
    if levels != [] {
      assert levels[1..] == [];
      assert LevelRun(p, dev, levels[0], depth, fuel, m) == 0;
      assert forall m' :: LevelsRun(p, dev, [], depth, fuel, m') == 0;
    }
  }

  lemma BareRange(p: Program, dev: Device, r: (nat, nat), depth: nat, fuel: nat, m: Mem)
    requires depth <= MAX_DEPTH && Nested(p, r, depth) && Bare(p, r)
    ensures EvalRange(p, dev, r, depth, fuel, m) == Done(m) && RangeRun(p, dev, r, depth, fuel, m) == 0
  {
    BareList(p, dev, Range(r.0, r.1), depth, fuel, m);
    BareIdle(p, r, depth);
    hide LevelsFrom, Idle, Bare, Nested;
    IdleRuns(p, dev, LevelsFrom(p, [], Range(r.0, r.1)), depth, fuel, m);
  }

  // ----- the two interpreters ---------------------------------------------------------------------

  lemma AllTrips(kind: Walker, count: nat)
    ensures Trips(Simulator, count) == count
    ensures count < INT_LIMIT ==> Trips(kind, count) == count
  {
  }

  /** Where the limits are not felt, both interpreters come to the same. */
  lemma {:induction false} SameRange(p: Program, dev: Device, r: (nat, nat), depth: nat, fuel: nat, m: Mem)
    requires depth <= MAX_DEPTH && Nested(p, r, depth) && Fits(p, r, depth)
    ensures EvalRange(p, dev, r, depth, fuel, m) == EvalRange(p, Unlimited(dev), r, depth, fuel, m)
    decreases MAX_DEPTH + 1 - depth, 3, 0
  {
    SameList(p, dev, Range(r.0, r.1), depth, fuel, m);
  }

  lemma {:induction false} SameList(p: Program, dev: Device, indices: seq<nat>, depth: nat, fuel: nat, m: Mem)
    requires depth <= MAX_DEPTH && ListNested(p, indices, depth) && ListFits(p, indices, depth)
    ensures EvalList(p, dev, indices, depth, fuel, m) == EvalList(p, Unlimited(dev), indices, depth, fuel, m)
    decreases MAX_DEPTH + 1 - depth, 2, |indices|
  {
    if indices == [] {
    } else {
      SameInstr(p, dev, indices[0], depth, fuel, m);
      var first := EvalInstr(p, dev, indices[0], depth, fuel, m);
      if first.Done? {
        SameList(p, dev, indices[1..], depth, fuel, first.mem);
      }
    }
  }

  lemma {:induction false} SameInstr(p: Program, dev: Device, i: nat, depth: nat, fuel: nat, m: Mem)
    requires depth <= MAX_DEPTH && i < |p.instrs| && InstrNested(p, i, depth) && InstrFits(p, i, depth)
    ensures EvalInstr(p, dev, i, depth, fuel, m) == EvalInstr(p, Unlimited(dev), i, depth, fuel, m)
    decreases MAX_DEPTH + 1 - depth, 1, 0
  {
    hide Bare, Nested, Trips, Fits;
    var ins := p.instrs[i];
    if ins.IsRegion() {
      if NoTrips(ins) {
        AllTrips(dev.walker, 0);
      } else if !CanNest(HostDispatch, depth) {
        BareRange(p, Unlimited(dev), Selected(ins, m), depth + 1, fuel, m);
        BareRange(p, dev, Selected(ins, m), depth + 1, fuel, m);
      } else if ins.op == While {
        SameWhile(p, dev, ins, depth, fuel, fuel, m);
      } else if ins.op == For {
        AllTrips(dev.walker, ins.b);
        SameFor(p, dev, ins, ins.b, depth, fuel, m);
      } else {
        SameRange(p, dev, Selected(ins, m), depth + 1, fuel, m);
      }
    } else if ins.op != Nop {
      SameDelta(dev, TaskOf(p.tg, ins), Tiles(p.tg, ins), m);
    }
  }

  lemma {:induction false} SameWhile(p: Program, dev: Device, ins: Instr, depth: nat, fuel: nat, left: nat, m: Mem)
    requires depth < MAX_DEPTH && Nested(p, FirstRange(ins), depth + 1) && Nested(p, SecondRange(ins), depth + 1)
    requires Fits(p, FirstRange(ins), depth + 1) && Fits(p, SecondRange(ins), depth + 1)
    ensures EvalWhile(p, dev, ins, depth, fuel, left, m) == EvalWhile(p, Unlimited(dev), ins, depth, fuel, left, m)
    decreases MAX_DEPTH + 1 - depth, 0, left
  {
    if left == 0 {
    } else {
      SameRange(p, dev, FirstRange(ins), depth + 1, fuel, m);
      var tested := EvalRange(p, dev, FirstRange(ins), depth + 1, fuel, m);
      if tested.Done? {
        SameRange(p, dev, SecondRange(ins), depth + 1, fuel, tested.mem);
        var body := EvalRange(p, dev, SecondRange(ins), depth + 1, fuel, tested.mem);
        if body.Done? {
          SameWhile(p, dev, ins, depth, fuel, left - 1, body.mem);
        }
      }
    }
  }

  lemma {:induction false} SameFor(p: Program, dev: Device, ins: Instr, trips: nat, depth: nat, fuel: nat, m: Mem)
    requires depth < MAX_DEPTH && Nested(p, SecondRange(ins), depth + 1) && Fits(p, SecondRange(ins), depth + 1)
    ensures EvalFor(p, dev, ins, trips, depth, fuel, m) == EvalFor(p, Unlimited(dev), ins, trips, depth, fuel, m)
    decreases MAX_DEPTH + 1 - depth, 0, trips
  {
    if trips == 0 {
    } else {
      SameRange(p, dev, SecondRange(ins), depth + 1, fuel, m);
      var body := EvalRange(p, dev, SecondRange(ins), depth + 1, fuel, m);
      if body.Done? {
        SameFor(p, dev, ins, trips - 1, depth, fuel, body.mem);
      }
    }
  }

  // ----- and their phases ---------------------------------------------------------------------------

  predicate RegionFits(p: Program, level: Level, depth: nat)
    requires depth <= MAX_DEPTH
  {
    match level
    case Compute(part) => AllSchedulable(p, part)
    case Region(i) => i < |p.instrs| && p.instrs[i].IsRegion() && InstrNested(p, i, depth) && InstrFits(p, i, depth)
  }

  lemma LevelsFit(p: Program, r: (nat, nat), depth: nat)
    requires depth <= MAX_DEPTH && Nested(p, r, depth) && Fits(p, r, depth)
    ensures InRange(p, Range(r.0, r.1))
    ensures forall x | 0 <= x < |LevelsFrom(p, [], Range(r.0, r.1))| ::
        RegionFits(p, LevelsFrom(p, [], Range(r.0, r.1))[x], depth)
  {
    var levels := LevelsFrom(p, [], Range(r.0, r.1));
    RangeLevels(p, r, depth, levels);
    hide LevelsFrom;
    forall x | 0 <= x < |levels|
      ensures RegionFits(p, levels[x], depth)
    {
      assert LevelOk(p, levels[x]);
      if levels[x].Region? {
        RegionMember(levels, x);
        LiveMember(p, Range(r.0, r.1), levels[x].idx);
        assert InstrNested(p, levels[x].idx, depth) && InstrFits(p, levels[x].idx, depth);
      }
    }
  }

  /** Both interpreters run as many phases. */
  lemma {:induction false} SameRun(p: Program, dev: Device, r: (nat, nat), depth: nat, fuel: nat, m: Mem)
    requires depth <= MAX_DEPTH && Nested(p, r, depth) && Fits(p, r, depth)
    ensures RangeRun(p, dev, r, depth, fuel, m) == RangeRun(p, Unlimited(dev), r, depth, fuel, m)
    decreases MAX_DEPTH + 1 - depth, 3, 0
  {
    LevelsFit(p, r, depth);
    SameLevels(p, dev, LevelsFrom(p, [], Range(r.0, r.1)), depth, fuel, m);
  }

  lemma {:induction false} SameLevels(p: Program, dev: Device, levels: seq<Level>, depth: nat, fuel: nat, m: Mem)
    requires depth <= MAX_DEPTH && forall x | 0 <= x < |levels| :: RegionFits(p, levels[x], depth)
    ensures LevelsRun(p, dev, levels, depth, fuel, m) == LevelsRun(p, Unlimited(dev), levels, depth, fuel, m)
    decreases MAX_DEPTH + 1 - depth, 2, |levels|
  {
    if levels == [] {
    } else {
      assert RegionFits(p, levels[0], depth);
      SameLevelRun(p, dev, levels[0], depth, fuel, m);
      LevelSame(p, dev, levels[0], depth, fuel, m);
      var first := EvalList(p, dev, InstrsOf(levels[0]), depth, fuel, m);
      if first.Done? {
        SameLevels(p, dev, levels[1..], depth, fuel, first.mem);
      }
    }
  }

  lemma LevelSame(p: Program, dev: Device, level: Level, depth: nat, fuel: nat, m: Mem)
    requires depth <= MAX_DEPTH && RegionFits(p, level, depth)
    ensures EvalList(p, dev, InstrsOf(level), depth, fuel, m) ==
            EvalList(p, Unlimited(dev), InstrsOf(level), depth, fuel, m)
  {
    hide Nested, Fits;
    SameList(p, dev, InstrsOf(level), depth, fuel, m);
  }

  lemma {:induction false} SameLevelRun(p: Program, dev: Device, level: Level, depth: nat, fuel: nat, m: Mem)
    requires depth <= MAX_DEPTH && RegionFits(p, level, depth)
    ensures LevelRun(p, dev, level, depth, fuel, m) == LevelRun(p, Unlimited(dev), level, depth, fuel, m)
    decreases MAX_DEPTH + 1 - depth, 1, 0
  {
    hide Bare, Nested, Trips, Fits;
    if level.Region? {
      var ins := p.instrs[level.idx];
      if NoTrips(ins) {
        AllTrips(dev.walker, 0);
      } else if !CanNest(HostDispatch, depth) {
        BareRange(p, Unlimited(dev), Selected(ins, m), depth + 1, fuel, m);
        BareRange(p, dev, Selected(ins, m), depth + 1, fuel, m);
      } else if ins.op == While {
        SameTests(p, dev, ins, depth, fuel, fuel, m);
      } else if ins.op == For {
        AllTrips(dev.walker, ins.b);
        SameTrips(p, dev, ins, ins.b, depth, fuel, m);
      } else {
        SameRun(p, dev, Selected(ins, m), depth + 1, fuel, m);
      }
    }
  }

  lemma {:induction false} SameTests(p: Program, dev: Device, ins: Instr, depth: nat, fuel: nat, left: nat, m: Mem)
    requires depth < MAX_DEPTH && Nested(p, FirstRange(ins), depth + 1) && Nested(p, SecondRange(ins), depth + 1)
    requires Fits(p, FirstRange(ins), depth + 1) && Fits(p, SecondRange(ins), depth + 1)
    ensures TestsRun(p, dev, ins, depth, fuel, left, m) == TestsRun(p, Unlimited(dev), ins, depth, fuel, left, m)
    decreases MAX_DEPTH + 1 - depth, 0, left
  {
    if left == 0 {
    } else {
      SameRange(p, dev, FirstRange(ins), depth + 1, fuel, m);
      SameRun(p, dev, FirstRange(ins), depth + 1, fuel, m);
      var tested := EvalRange(p, dev, FirstRange(ins), depth + 1, fuel, m);
      if tested.Done? {
        SameRange(p, dev, SecondRange(ins), depth + 1, fuel, tested.mem);
        SameRun(p, dev, SecondRange(ins), depth + 1, fuel, tested.mem);
        var body := EvalRange(p, dev, SecondRange(ins), depth + 1, fuel, tested.mem);
        if body.Done? {
          SameTests(p, dev, ins, depth, fuel, left - 1, body.mem);
        }
      }
    }
  }

  lemma {:induction false} SameTrips(p: Program, dev: Device, ins: Instr, trips: nat, depth: nat, fuel: nat, m: Mem)
    requires depth < MAX_DEPTH && Nested(p, SecondRange(ins), depth + 1) && Fits(p, SecondRange(ins), depth + 1)
    ensures TripsRun(p, dev, ins, trips, depth, fuel, m) == TripsRun(p, Unlimited(dev), ins, trips, depth, fuel, m)
    decreases MAX_DEPTH + 1 - depth, 0, trips
  {
    if trips == 0 {
    } else {
      SameRange(p, dev, SecondRange(ins), depth + 1, fuel, m);
      SameRun(p, dev, SecondRange(ins), depth + 1, fuel, m);
      var body := EvalRange(p, dev, SecondRange(ins), depth + 1, fuel, m);
      if body.Done? {
        SameTrips(p, dev, ins, trips - 1, depth, fuel, body.mem);
      }
    }
  }

  /** The limits of `dev` are not felt in the program. */
  predicate Unfelt(p: Program, dev: Device) {
    dev.walker == HostDispatch ==> Fits(p, (0, p.mainLen), 0)
  }

  /** A program that fits means on the host engine what it means to the interpreter, and is
      rejected by neither. */
  lemma LimitsUnfelt(p: Program, dev: Device, fuel: nat, m: Mem)
    requires Nested(p, (0, p.mainLen), 0) && Unfelt(p, dev)
    ensures Execute(p, dev, fuel, m) == Execute(p, Unlimited(dev), fuel, m) && Accepted(Execute(p, dev, fuel, m))
    ensures PhasesRun(p, dev, fuel, m) == PhasesRun(p, Unlimited(dev), fuel, m)
  {
    NestedAccepted(p, Unlimited(dev), (0, p.mainLen), 0, fuel, m);
    if dev.walker == HostDispatch {
      SameRange(p, dev, (0, p.mainLen), 0, fuel, m);
      SameRun(p, dev, (0, p.mainLen), 0, fuel, m);
    }
  }
}
