/** Eight nested loops of one trip around a single operation: the interpreter runs the operation,
    the host engine halts without it and reports nothing. */
module NestingGap {
  import opened Arith
  import opened Isa
  import opened Interleave
  import opened OnePhase
  import opened PhaseCut
  import opened PhaseUnits
  import opened Reference
  import opened Levels
  import opened PhaseCount
  import opened Layout
  import opened Scheduler
  import opened Engine
  import opened RoundLaws
  import opened Simulation
  import opened HostRoom
  import opened EndToEnd

  /** Loop `i` has the next instruction as its body; the innermost body writes buffer 1. */
  function InstrAt(i: nat): Instr {
    if i < MAX_DEPTH then Instr(For, 0, 0, 1, i + 1, 1, 0, 0, 0) else Instr(Ext(0), 1, 0, 0, 1, 0, 0, 0, 0)
  }

  function Instrs(): (s: seq<Instr>)
    ensures |s| == MAX_DEPTH + 1 && forall i | 0 <= i < |s| :: s[i] == InstrAt(i)
  {
    seq(MAX_DEPTH + 1, i requires 0 <= i < MAX_DEPTH + 1 => InstrAt(i))
  }

  const COMBINE := Task(TILE_REDUCE_COMB, 1, 0, 0, 0, 0, 0, 0, 0, 0, 0, 0, 0, 0)
  const TARGET := Target(ins => {}, ins => COMBINE, 1, 1, op => 1.0)
  const PROGRAM := Program(Instrs(), 1, TARGET, true)
  const RESULT := Cell(1, 0)
  const DEVICE := Device((t: Task, k: nat, m: Mem) => map[RESULT := 1], (t: Task, k: nat, c: Cell) => false,
                         HostDispatch)

  lemma LastInstr()
    ensures |PROGRAM.instrs| == MAX_DEPTH + 1 && forall i | 0 <= i <= MAX_DEPTH :: PROGRAM.instrs[i] == InstrAt(i)
    ensures Schedulable(TARGET, InstrAt(MAX_DEPTH)) && Tiles(TARGET, InstrAt(MAX_DEPTH)) == 1
    ensures !IsMap(TARGET, InstrAt(MAX_DEPTH))
  {
  }

  lemma KernelLawful()
    ensures KernelsOk(PROGRAM, DEVICE)
  {
    LastInstr();
    var ins := InstrAt(MAX_DEPTH);
    forall k: nat
      ensures TileOk(PROGRAM, DEVICE, ins, k)
    {
    }
    forall i | i in Everything(PROGRAM) && PROGRAM.instrs[i].IsCompute()
      ensures i == MAX_DEPTH
    {
    }
    assert InstrOk(PROGRAM, DEVICE, ins);
  }

  lemma NothingViewed()
    ensures ViewsSafe(PROGRAM)
  {
    LastInstr();
    forall part | CleanPhase(PROGRAM, part)
      ensures ViewSafe(PROGRAM, part)
    {
      forall x | 0 <= x < |part|
        ensures !IsMap(TARGET, PROGRAM.instrs[part[x]])
      {
        assert Schedulable(TARGET, PROGRAM.instrs[part[x]]);
        assert part[x] == MAX_DEPTH;
      }
    }
    assert RangeSafe(PROGRAM, (0, PROGRAM.mainLen));
    forall i | 0 <= i < |PROGRAM.instrs| && PROGRAM.instrs[i].IsRegion()
      ensures RegionSafe(PROGRAM, i)
    {
    }
  }

  /** The interpreter comes to the innermost body and runs it. */
  lemma {:induction false} Interpreted(i: nat, fuel: nat, m: Mem)
    requires i <= MAX_DEPTH
    ensures EvalRange(PROGRAM, Unlimited(DEVICE), (i, 1), i, fuel, m) == Done(m[RESULT := 1])
    decreases MAX_DEPTH - i
  {
    var dev := Unlimited(DEVICE);
    LastInstr();
    assert Range(i, 1) == [i];
    if i < MAX_DEPTH {
      Interpreted(i + 1, fuel, m);
      var ins := PROGRAM.instrs[i];
      assert SecondRange(ins) == (i + 1, 1);
      assert EvalFor(PROGRAM, dev, ins, 0, i, fuel, m[RESULT := 1]) == Done(m[RESULT := 1]);
      assert EvalFor(PROGRAM, dev, ins, 1, i, fuel, m) == Done(m[RESULT := 1]);
      assert EvalInstr(PROGRAM, dev, i, i, fuel, m) == Done(m[RESULT := 1]);
    } else {
      WholeOfLast(m);
      assert EvalInstr(PROGRAM, dev, i, i, fuel, m) == Done(m[RESULT := 1]);
    }
    assert [i][1..] == [];
    assert EvalList(PROGRAM, dev, [i][1..], i, fuel, m[RESULT := 1]) == Done(m[RESULT := 1]);
  }

  lemma WholeOfLast(m: Mem)
    ensures |PROGRAM.instrs| == MAX_DEPTH + 1 && Schedulable(TARGET, PROGRAM.instrs[MAX_DEPTH])
    ensures Whole(PROGRAM, Unlimited(DEVICE), MAX_DEPTH, m) == m[RESULT := 1]
  {
    LastInstr();
    var t := TaskOf(TARGET, PROGRAM.instrs[MAX_DEPTH]);
    assert Delta(Unlimited(DEVICE), t, 1, m) == map[] + map[RESULT := 1];
  }

  /** The host engine takes the innermost loop for the end of the program. */
  lemma {:induction false} CutShort(i: nat, fuel: nat, m: Mem)
    requires i < MAX_DEPTH
    ensures EvalRange(PROGRAM, DEVICE, (i, 1), i, fuel, m) == Truncated(m)
    decreases MAX_DEPTH - i
  {
    LastInstr();
    assert Range(i, 1) == [i];
    var ins := PROGRAM.instrs[i];
    if !Cramped(DEVICE, i) {
      CutShort(i + 1, fuel, m);
      assert SecondRange(ins) == (i + 1, 1);
      assert EvalFor(PROGRAM, DEVICE, ins, 1, i, fuel, m) == Truncated(m);
    }
    assert EvalInstr(PROGRAM, DEVICE, i, i, fuel, m) == Truncated(m);
  }

  lemma OneLevel(i: nat)
    requires i < MAX_DEPTH
    ensures |PROGRAM.instrs| == MAX_DEPTH + 1 && LevelsFrom(PROGRAM, [], [i]) == [Region(i)]
  {
    LastInstr();
    assert [i][1..] == [];
    assert Greedy(PROGRAM, [], []) == [] && LevelsFrom(PROGRAM, [], []) == [];
  }

  lemma {:induction false} NothingRun(i: nat, fuel: nat, m: Mem)
    requires i < MAX_DEPTH
    ensures RangeRun(PROGRAM, DEVICE, (i, 1), i, fuel, m) == 0
    decreases MAX_DEPTH - i
  {
    hide EvalRange, Instrs, InstrAt;
    LastInstr();
    OneLevel(i);
    OneLoop(i);
    assert Range(i, 1) == [i];
    var ins := PROGRAM.instrs[i];
    if !Cramped(DEVICE, i) {
      NothingRun(i + 1, fuel, m);
      CutShort(i + 1, fuel, m);
      assert TripsRun(PROGRAM, DEVICE, ins, 1, i, fuel, m) == 0;
    }
    assert LevelRun(PROGRAM, DEVICE, Region(i), i, fuel, m) == 0;
    LastRun(i, fuel, m);
  }

  lemma OneLoop(i: nat)
    requires i < MAX_DEPTH
    ensures |PROGRAM.instrs| == MAX_DEPTH + 1
    ensures PROGRAM.instrs[i].op == For && PROGRAM.instrs[i].b == 1 && SecondRange(PROGRAM.instrs[i]) == (i + 1, 1)
  {
    LastInstr();
  }

  lemma LastRun(i: nat, fuel: nat, m: Mem)
    requires i < MAX_DEPTH
    ensures LevelsRun(PROGRAM, DEVICE, [Region(i)], i, fuel, m)
         == LevelRun(PROGRAM, DEVICE, Region(i), i, fuel, m)
  {
    hide LevelRun, EvalList;
    assert [Region(i)][1..] == [];
    assert forall m' :: LevelsRun(PROGRAM, DEVICE, [], i, fuel, m') == 0;
  }

  /** On every lane count, with every interleaving and from every memory, the host engine halts
      with nothing launched and nothing changed; the interpreter has written the result. */
  lemma HostMissesWork(n: pos, s: Schedule, owner: seq<nat>, blocks: seq<Block>, jobs: seq<Job>,
                       pick: (nat, seq<seq<Step>>) -> seq<nat>, fuel: nat, m: Mem) returns (r: nat)
    requires Built(PROGRAM, n, s, owner, blocks, jobs)
    requires PickOk(Machine(HostDispatch, DEVICE, s.tasks, s.laneStreams, pick))
    ensures HaltsAt(Machine(HostDispatch, DEVICE, s.tasks, s.laneStreams, pick), Initial(s, m), r, m, 0)
    ensures Execute(PROGRAM, Unlimited(DEVICE), fuel, m) == Done(m[RESULT := 1])
  {
    hide Built, PickOk, HaltsAt, Initial, RangeRun, StateOk, Rounds, Segmented;
    var mc := Machine(HostDispatch, DEVICE, s.tasks, s.laneStreams, pick);
    KernelLawful();
    NothingViewed();
    Interpreted(0, fuel, m);
    CutShort(0, fuel, m);
    NothingRun(0, fuel, m);
    hide Built, KernelsOk, ViewsSafe, PickOk, StateOk, EvalRange, RangeRun, HaltsAt, Rounds, Segmented, CrashesAt,
        RunsFor;
    EngineIsReference(PROGRAM, n, DEVICE, s, owner, blocks, jobs, pick, fuel, m);
    r :| HaltsAt(mc, Initial(s, m), r, m, 0);
  }
}
