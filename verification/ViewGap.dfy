/** Why views must not be written in the phase that reads them: a phase that the scheduler cuts,
    with lawful kernels, that an interleaving of its packed lanes gets wrong. */
module ViewGap {
  import opened Arith
  import opened Isa
  import opened Interleave
  import opened Streams
  import opened PhaseCut
  import opened Chains
  import opened Packing
  import opened OnePhase
  import opened PhaseUnits

  /** Buffer 1 is filled, then buffer 2 reads it back to front through a view. */
  const FIRST := Instr(Add, 1, 0, 0, 2, 0, 0, 0, 0)
  const SECOND := Instr(Add, 2, 1, 1, 2, 1, 1, 0, 0)
  const TARGET := Target(ins => {}, ins => Task(0, 0, 0, 0, 0, 0, 0, 0, 0, 0, 0, 0, 0, 0), 1, 1, op => 1.0)
  const PROGRAM := Program([FIRST, SECOND], 2, TARGET, true)

  function Kernel(t: Task, k: nat, m: Mem): Mem {
    if t.dst == 1 then map[Cell(1, k) := 1]
    else if t.dst == 2 && k < 2 then map[Cell(2, k) := Get(m, Cell(1, 1 - k))]
    else map[]
  }

  predicate Touches(t: Task, k: nat, c: Cell) {
    t.dst == 2 && k < 2 && c == Cell(1, 1 - k)
  }

  const DEVICE := Device(Kernel, Touches, Simulator)

  lemma KernelsLawful()
    ensures KernelsOk(PROGRAM, DEVICE)
  {
    forall i | 0 <= i < |PROGRAM.instrs|
      ensures InstrOk(PROGRAM, DEVICE, PROGRAM.instrs[i])
    {
      var ins := PROGRAM.instrs[i];
      var t := TaskOf(TARGET, ins);
      assert NTiles(TARGET, t) == 2;
      forall k: nat | k < 2
        ensures TileOk(PROGRAM, DEVICE, ins, k)
      {
        forall m, m' | SameOn(DEVICE, t, k, m, m')
          ensures Kernel(t, k, m) == Kernel(t, k, m')
        {
          assert t.dst == 2 ==> DEVICE.touches(t, k, Cell(1, 1 - k));
        }
      }
    }
  }

  lemma StaysOnLane()
    ensures !CrossLaneDep(TARGET, SECOND, FIRST)
    ensures Schedulable(TARGET, FIRST) && Schedulable(TARGET, SECOND)
    ensures NTiles(TARGET, TaskOf(TARGET, SECOND)) == 2
  {
  }

  lemma BothSchedulable()
    ensures CleanPhase(PROGRAM, [0, 1])
  {
    StaysOnLane();
    hide CrossLaneDep, Schedulable;
    var part := [0, 1];
    forall x, y | 0 <= x < y < |part|
      ensures !Boundary(PROGRAM, part[y], part[x])
    {
      assert x == 0 && y == 1;
    }
  }

  lemma CutTogether()
    ensures Greedy(PROGRAM, [], [0, 1]) == [[0, 1]]
  {
    StaysOnLane();
    hide CrossLaneDep, Schedulable;
    assert [] + [0] == [0] && [0, 1][1..] == [1] && [0] + [1] == [0, 1] && [1][1..] == [];
    forall x | 0 <= x < |[0]|
      ensures !Boundary(PROGRAM, 1, [0][x])
    {
    }
    assert !Hits(PROGRAM, 1, [0]);
    assert Greedy(PROGRAM, [0, 1], []) == [[0, 1]];
    assert Greedy(PROGRAM, [0], [1]) == Greedy(PROGRAM, [0, 1], []);
  }

  lemma Viewing()
    ensures CleanPhase(PROGRAM, [0, 1]) && !ViewSafe(PROGRAM, [0, 1])
  {
    BothSchedulable();
    StaysOnLane();
    var part := [0, 1];
    assert PROGRAM.instrs[part[0]] == FIRST && PROGRAM.instrs[part[1]] == SECOND;
    assert !ViewSafePair(TARGET, FIRST, SECOND);
    hide Schedulable, CrossLaneDep;
  }

  // ----- how the phase is packed on two lanes -----------------------------------------------------

  const OWNER: seq<nat> := [0, 1]
  const UNITS: seq<Unit> := [Unit([0, 1], 2, 4.0)]

  lemma AllMaps()
    ensures CleanPhase(PROGRAM, [0, 1]) && Pick(PROGRAM, [0, 1], true) == [0, 1] && Pick(PROGRAM, [0, 1], false) == []
  {
    BothSchedulable();
    hide CleanPhase, Schedulable;
    assert [0, 1][1..] == [1] && [1][1..] == [];
    assert Pick(PROGRAM, [1], true) == [1] && Pick(PROGRAM, [1], false) == [];
  }

  lemma LinkedPair()
    ensures InRange(PROGRAM, [0, 1]) && Linked(PROGRAM, [0, 1], 0, 1)
  {
    var maps := [0, 1];
    assert maps[..1] == [0] && [0][..0] == [];
    assert WriterTable(PROGRAM, []) == map[];
    assert WriterTable(PROGRAM, [0]) == map[1 := 0];
    assert WriterTable(PROGRAM, maps) == map[1 := 0, 2 := 1];
    assert 1 in Reads(TARGET, PROGRAM.instrs[1]);
  }

  lemma OneChain()
    ensures InRange(PROGRAM, [0, 1]) && AreChains(PROGRAM, [0, 1], [[0, 1]])
  {
    LinkedPair();
    var maps, comps := [0, 1], [[0, 1]];
    hide Linked;
    assert Flatten(comps) == [0, 1] + Flatten(comps[1..]) == [0, 1];
    forall tag: nat -> nat, c, i, j | Respects(PROGRAM, maps, tag) && 0 <= c < |comps| && i in comps[c] && j in comps[c]
      ensures tag(i) == tag(j)
    {
      assert tag(0) == tag(1);
    }
  }

  lemma UnitOfBoth()
    ensures GoodChain(PROGRAM, [0, 1]) && UnitFor(PROGRAM, OWNER, [0, 1], UNITS[0])
  {
    BothSchedulable();
    StaysOnLane();
    var chain := [0, 1];
    assert NTiles(TARGET, TaskOf(TARGET, FIRST)) == 2;
    forall x | 0 <= x < |chain|
      ensures Tiles(TARGET, PROGRAM.instrs[chain[x]]) == 2
    {
      assert PROGRAM.instrs[chain[x]] in {FIRST, SECOND};
    }
  }

  lemma UnitsOfBoth()
    ensures CleanPhase(PROGRAM, [0, 1]) && UnitsFor(PROGRAM, OWNER, [0, 1], UNITS)
  {
    hide IsMap;
    AllMaps();
    OneChain();
    UnitOfBoth();
    hide CleanPhase, AreChains, GoodChain, UnitFor, Pick;
    var comps := [[0, 1]];
    assert Singles(Pick(PROGRAM, [0, 1], false)) + comps == comps;
    OneUnit(comps);
    hide UnitsForChains;
  }

  lemma OneUnit(comps: seq<seq<nat>>)
    requires comps == [[0, 1]] && GoodChain(PROGRAM, [0, 1]) && UnitFor(PROGRAM, OWNER, [0, 1], UNITS[0])
    ensures UnitsForChains(PROGRAM, OWNER, comps, UNITS)
  {
    hide GoodChain, UnitFor;
  }

  /** Each lane gets one tile of both instructions. */
  const LANES: seq<seq<Step>> := [[Step(0, 0), Step(1, 0)], [Step(0, 1), Step(1, 1)]]

  const LOWER := Chunk(2.0, 0, [0, 1], 0, 1)
  const UPPER := Chunk(2.0, 0, [0, 1], 1, 2)

  lemma PartsOfUnit()
    ensures PartOf(0, UNITS[0], 0, 2) == LOWER && PartOf(0, UNITS[0], 1, 2) == UPPER
    ensures Fanout(UNITS[0], 2, 4.0) == 2 && Divisor(UNITS) == 4.0
  {
    assert Cut(2, 0, 2) == 0 && Cut(2, 1, 2) == 1 && Cut(2, 2, 2) == 2;
    assert UNITS[1..] == [];
    assert TotalCost(UNITS) == 4.0;
    assert Ceil(2 as real * 4.0 / 4.0) == 2;
  }

  lemma PartsOfBoth()
    ensures PartsOfAll(UNITS, 0, 2, 4.0) == [LOWER, UPPER]
  {
    PartsOfUnit();
    hide PartOf, Fanout;
    var u := UNITS[0];
    assert PartsFrom(0, u, 2, 2) == [];
    assert PartsFrom(0, u, 1, 2) == [UPPER];
    assert PartsFrom(0, u, 0, 2) == [LOWER, UPPER];
    assert PartsOfAll(UNITS, 1, 2, 4.0) == [];
  }

  lemma ChunksOfBoth()
    ensures SortedChunks(UNITS, 2) == [LOWER, UPPER]
  {
    PartsOfBoth();
    PartsOfUnit();
    hide PartsOfAll, Divisor;
    assert [UPPER][1..] == [] && [LOWER, UPPER][1..] == [UPPER];
    assert SortChunks([]) == [];
    assert SortChunks([UPPER]) == [UPPER];
  }

  lemma PlacedApart()
    ensures Place(Costs([LOWER, UPPER]), 2) == [0, 1]
  {
    var w := Costs([LOWER, UPPER]);
    assert w == [2.0, 2.0] && w[..1] == [2.0] && [2.0][..0] == [];
    var none: seq<real> := [];
    assert Place(none, 2) == [];
    assert Load(none, [], 0) == 0.0 && Load(none, [], 1) == 0.0;
    assert Loads(none, [], 2) == [0.0, 0.0];
    LeastOfTwo([0.0, 0.0]);
    assert Place([2.0], 2) == [0];
    assert [0][..0] == [];
    assert Load([2.0], [0], 0) == 2.0 && Load([2.0], [0], 1) == 0.0;
    assert Loads([2.0], [0], 2) == [2.0, 0.0];
    LeastOfTwo([2.0, 0.0]);
  }

  lemma LeastOfTwo(loads: seq<real>)
    requires |loads| == 2
    ensures ArgMin(loads) == if loads[1] < loads[0] then 1 else 0
  {
    var lane := ArgMin(loads);
    assert lane < 2 && loads[lane] <= loads[0] && loads[lane] <= loads[1];
  }

  lemma StepsOfChunks()
    ensures ChunkOk(OWNER, LOWER) && ChunkSteps(OWNER, LOWER) == LANES[0]
    ensures ChunkOk(OWNER, UPPER) && ChunkSteps(OWNER, UPPER) == LANES[1]
  {
    assert TileSteps(0, 0, 1) == [Step(0, 0)] && TileSteps(1, 0, 1) == [Step(1, 0)];
    assert TileSteps(0, 1, 2) == [Step(0, 1)] && TileSteps(1, 1, 2) == [Step(1, 1)];
    assert [0, 1][1..] == [1] && [1][1..] == [];
    assert ChainSteps(OWNER, [1], 0, 1) == [Step(1, 0)] && ChainSteps(OWNER, [1], 1, 2) == [Step(1, 1)];
  }

  lemma StepsOfLanes()
    ensures ChunksOk(OWNER, [LOWER, UPPER])
    ensures LaneSteps(OWNER, [LOWER, UPPER], [0, 1], 0) == LANES[0]
    ensures LaneSteps(OWNER, [LOWER, UPPER], [0, 1], 1) == LANES[1]
  {
    StepsOfChunks();
    hide ChunkSteps, ChunkOk;
    assert [LOWER, UPPER][..1] == [LOWER] && [0, 1][..1] == [0] && [LOWER][..0] == [] && [0][..0] == [];
    assert LaneSteps(OWNER, [], [], 0) == [] && LaneSteps(OWNER, [], [], 1) == [];
    assert LaneSteps(OWNER, [LOWER], [0], 0) == [] + LANES[0] && LaneSteps(OWNER, [LOWER], [0], 1) == [] + [];
  }

  lemma LanesOfBoth()
    ensures PackedOk(OWNER, UNITS, 2) && PackedSteps(OWNER, UNITS, 2) == LANES
  {
    hide SortedChunks, Place, Costs, PackedSteps, Packed, LaneSteps, ChunksOk;
    ChunksOfBoth();
    PlacedApart();
    StepsOfLanes();
    assert UnitsOk(OWNER, UNITS);
    PackedStepsAre(OWNER, UNITS, 2);
    assert AllLanes(OWNER, [LOWER, UPPER], [0, 1], 2) == LANES;
  }

  // ----- what goes wrong --------------------------------------------------------------------------

  lemma LaneByLane()
    ensures ValidSched(LANES, [0, 0, 1, 1])
    ensures Weave(LANES, [0, 0, 1, 1]) == [Step(0, 0), Step(1, 0), Step(0, 1), Step(1, 1)]
  {
    var a, b, c, d := Step(0, 0), Step(1, 0), Step(0, 1), Step(1, 1);
    assert [0, 0, 1, 1][1..] == [0, 1, 1] && [0, 1, 1][1..] == [1, 1] && [1, 1][1..] == [1] && [1][1..] == [];
    assert [a, b][1..] == [b] && [b][1..] == [] && [c, d][1..] == [d] && [d][1..] == [];
    assert Advance(LANES, 0) == [[b], [c, d]];
    assert Advance([[b], [c, d]], 0) == [[], [c, d]];
    assert Advance([[], [c, d]], 1) == [[], [d]];
    assert Advance([[], [d]], 1) == [[], []];
    assert ValidSched([[], []], []);
    assert ValidSched([[], [d]], [1]) && Weave([[], [d]], [1]) == [d];
    assert ValidSched([[], [c, d]], [1, 1]) && Weave([[], [c, d]], [1, 1]) == [c, d];
    assert ValidSched([[b], [c, d]], [0, 1, 1]) && Weave([[b], [c, d]], [0, 1, 1]) == [b, c, d];
  }

  lemma StepEffects(m: Mem, k: nat)
    requires k < 2
    ensures Act(PROGRAM, DEVICE)(Step(0, k), m) == m[Cell(1, k) := 1]
    ensures Act(PROGRAM, DEVICE)(Step(1, k), m) == m[Cell(2, k) := Get(m, Cell(1, 1 - k))]
  {
    var t, u := TaskOf(TARGET, FIRST), TaskOf(TARGET, SECOND);
    assert DEVICE.kern(t, k, m) == Kernel(t, k, m) && DEVICE.kern(u, k, m) == Kernel(u, k, m);
    assert PROGRAM.instrs[0] == FIRST && PROGRAM.instrs[1] == SECOND;
    assert Act(PROGRAM, DEVICE)(Step(0, k), m) == m + Kernel(t, k, m);
    assert Act(PROGRAM, DEVICE)(Step(1, k), m) == m + Kernel(u, k, m);
    assert m + map[Cell(1, k) := 1] == m[Cell(1, k) := 1];
    assert m + map[Cell(2, k) := Get(m, Cell(1, 1 - k))] == m[Cell(2, k) := Get(m, Cell(1, 1 - k))];
  }

  lemma RunFour(a: Step, b: Step, c: Step, d: Step, m: Mem)
    ensures var act := Act(PROGRAM, DEVICE); Run(act, [a, b, c, d], m) == act(d, act(c, act(b, act(a, m))))
  {
    var act := Act(PROGRAM, DEVICE);
    assert [a, b, c, d][1..] == [b, c, d] && [b, c, d][1..] == [c, d] && [c, d][1..] == [d] && [d][1..] == [];
    hide Act;
    assert Run(act, [d], act(c, act(b, act(a, m)))) == act(d, act(c, act(b, act(a, m))));
    assert Run(act, [c, d], act(b, act(a, m))) == Run(act, [d], act(c, act(b, act(a, m))));
    assert Run(act, [b, c, d], act(a, m)) == Run(act, [c, d], act(b, act(a, m)));
  }

  lemma ProgramOrder()
    ensures AllSchedulable(PROGRAM, [0, 1])
    ensures PhaseSteps(PROGRAM, [0, 1]) == [Step(0, 0), Step(0, 1), Step(1, 0), Step(1, 1)]
  {
    BothSchedulable();
    assert [0, 1][1..] == [1] && [1][1..] == [];
    assert Tiles(TARGET, FIRST) == 2 && Tiles(TARGET, SECOND) == 2;
    assert TileSteps(0, 0, 2) == [Step(0, 0), Step(0, 1)] && TileSteps(1, 0, 2) == [Step(1, 0), Step(1, 1)];
    assert PhaseSteps(PROGRAM, [1]) == TileSteps(1, 0, 2);
  }

  /** The premise on views cannot be dropped: the scheduler cuts this phase, its kernels keep every
      other promise, and one interleaving of its packed lanes leaves another memory than its
      instructions in program order. */
  lemma ViewsMatter()
    ensures KernelsOk(PROGRAM, DEVICE) && Greedy(PROGRAM, [], [0, 1]) == [[0, 1]]
    ensures CleanPhase(PROGRAM, [0, 1]) && !ViewSafe(PROGRAM, [0, 1])
    ensures UnitsFor(PROGRAM, OWNER, [0, 1], UNITS) && PackedOk(OWNER, UNITS, 2)
    ensures ValidSched(PackedSteps(OWNER, UNITS, 2), [0, 0, 1, 1])
    ensures Run(Act(PROGRAM, DEVICE), Weave(PackedSteps(OWNER, UNITS, 2), [0, 0, 1, 1]), map[])
         != Run(Act(PROGRAM, DEVICE), PhaseSteps(PROGRAM, [0, 1]), map[])
  {
    hide Greedy, ViewSafe, CleanPhase, UnitsFor, PackedSteps, PackedOk, Packed, ValidSched, Weave, Act, PhaseSteps, Run;
    KernelsLawful();
    CutTogether();
    Viewing();
    UnitsOfBoth();
    LanesOfBoth();
    LaneByLane();
    ProgramOrder();
    DifferentMemories();
  }

  lemma DifferentMemories()
    ensures Run(Act(PROGRAM, DEVICE), [Step(0, 0), Step(1, 0), Step(0, 1), Step(1, 1)], map[])
         != Run(Act(PROGRAM, DEVICE), [Step(0, 0), Step(0, 1), Step(1, 0), Step(1, 1)], map[])
  {
    hide Run, Act;
    var none: Mem := map[];
    RunFour(Step(0, 0), Step(1, 0), Step(0, 1), Step(1, 1), none);
    RunFour(Step(0, 0), Step(0, 1), Step(1, 0), Step(1, 1), none);
    var m1 := none[Cell(1, 0) := 1];
    StepEffects(none, 0);
    StepEffects(m1, 0);
    StepEffects(m1, 1);
    var early, late := m1[Cell(2, 0) := 0], m1[Cell(1, 1) := 1];
    StepEffects(early, 1);
    StepEffects(late, 0);
    var early2, late2 := early[Cell(1, 1) := 1], late[Cell(2, 0) := 1];
    StepEffects(early2, 1);
    StepEffects(late2, 1);
    var act := Act(PROGRAM, DEVICE);
    var first := act(Step(1, 1), early2);
    var second := act(Step(1, 1), late2);
    assert first[Cell(2, 0)] == 0 && second[Cell(2, 0)] == 1;
  }
}
