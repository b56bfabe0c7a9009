/** Eight nested IFs on one flag: the host engine has no room for the innermost, whose other branch
    holds work, and still agrees with the interpreter from every memory. So room is not needed
    once there are IFs: which branches are taken decides, and no look at the nesting alone tells. */
module BranchGap {
  import opened Arith
  import opened Isa
  import opened Interleave
  import opened OnePhase
  import opened PhaseCut
  import opened PhaseUnits
  import opened Reference
  import opened Levels
  import opened PhaseCount
  import opened Layout
  import opened Scheduler
  import opened Engine
  import opened RoundLaws
  import opened Simulation
  import opened HostRoom
  import opened EndToEnd

  const LAST := MAX_DEPTH - 1

  /** IF `i` has the next IF as its first branch and nothing as its second; the last one has nothing
      as its first branch and the operation as its second. */
  function InstrAt(i: nat): Instr {
    if i < LAST then Instr(If, 0, i + 1, 1, 0, 0, 0, 0, 0)
    else if i == LAST then Instr(If, 0, 0, 0, MAX_DEPTH, 1, 0, 0, 0)
    else Instr(Ext(0), 1, 0, 0, 1, 0, 0, 0, 0)
  }

  function Instrs(): (s: seq<Instr>)
    ensures |s| == MAX_DEPTH + 1 && forall i | 0 <= i < |s| :: s[i] == InstrAt(i)
  {
    seq(MAX_DEPTH + 1, i requires 0 <= i < MAX_DEPTH + 1 => InstrAt(i))
  }

  const COMBINE := Task(TILE_REDUCE_COMB, 1, 0, 0, 0, 0, 0, 0, 0, 0, 0, 0, 0, 0)
  const TARGET := Target(ins => {}, ins => COMBINE, 1, 1, op => 1.0)
  const PROGRAM := Program(Instrs(), 1, TARGET, true)

  lemma InstrsAre(i: nat)
    requires i <= MAX_DEPTH
    ensures |PROGRAM.instrs| == MAX_DEPTH + 1 && PROGRAM.instrs[i] == InstrAt(i)
  {
  }

  /** With the flag up the first branches are taken, down to the bare one; with the flag down
      nothing is. Nothing runs and the memory stays, at any depth and under any limits. */
  lemma {:induction false} NothingDone(dev: Device, i: nat, fuel: nat, m: Mem)
    requires i <= LAST && (Get(m, Cell(0, 0)) != 0 || i == 0)
    ensures EvalRange(PROGRAM, dev, (i, 1), i, fuel, m) == Done(m)
    decreases MAX_DEPTH - i
  {
    InstrsAre(i);
    assert Range(i, 1) == [i] && [i][1..] == [];
    var ins := PROGRAM.instrs[i];
    if i < LAST && Get(m, Cell(0, 0)) != 0 {
      NothingDone(dev, i + 1, fuel, m);
      assert Selected(ins, m) == (i + 1, 1) && !Cramped(dev, i);
    } else {
      EmptyRange(dev, Selected(ins, m), i, fuel, m);
    }
    assert EvalInstr(PROGRAM, dev, i, i, fuel, m) == Done(m);
    assert EvalList(PROGRAM, dev, [i][1..], i, fuel, m) == Done(m);
  }

  lemma EmptyRange(dev: Device, r: (nat, nat), i: nat, fuel: nat, m: Mem)
    requires i <= LAST && r == (0, 0)
    ensures Bare(PROGRAM, r) && EvalRange(PROGRAM, dev, r, i + 1, fuel, m) == Done(m)
  {
    assert Range(0, 0) == [];
    assert Greedy(PROGRAM, [], Live(PROGRAM, [])) == [];
  }

  lemma EmptyRun(dev: Device, i: nat, fuel: nat, m: Mem)
    requires i <= LAST
    ensures RangeRun(PROGRAM, dev, (0, 0), i + 1, fuel, m) == 0
  {
    assert Range(0, 0) == [];
    assert Greedy(PROGRAM, [], []) == [] && LevelsFrom(PROGRAM, [], []) == [];
  }

  lemma OneLevel(i: nat)
    requires i <= LAST
    ensures |PROGRAM.instrs| == MAX_DEPTH + 1 && LevelsFrom(PROGRAM, [], [i]) == [Region(i)]
  {
    InstrsAre(i);
    assert [i][1..] == [];
    assert Greedy(PROGRAM, [], []) == [] && LevelsFrom(PROGRAM, [], []) == [];
  }

  lemma OneBranch(i: nat, m: Mem)
    requires i <= LAST && (Get(m, Cell(0, 0)) != 0 || i == 0)
    ensures |PROGRAM.instrs| == MAX_DEPTH + 1 && PROGRAM.instrs[i].op == If
    ensures Selected(PROGRAM.instrs[i], m) == if i < LAST && Get(m, Cell(0, 0)) != 0 then (i + 1, 1) else (0, 0)
  {
    InstrsAre(i);
  }

  lemma {:induction false} NothingRun(dev: Device, i: nat, fuel: nat, m: Mem)
    requires i <= LAST && (Get(m, Cell(0, 0)) != 0 || i == 0)
    ensures RangeRun(PROGRAM, dev, (i, 1), i, fuel, m) == 0
    decreases MAX_DEPTH - i
  {
    hide EvalRange, Instrs, InstrAt;
    OneLevel(i);
    OneBranch(i, m);
    assert Range(i, 1) == [i];
    if i < LAST && Get(m, Cell(0, 0)) != 0 {
      NothingRun(dev, i + 1, fuel, m);
    } else {
      EmptyRun(dev, i, fuel, m);
    }
    assert LevelRun(PROGRAM, dev, Region(i), i, fuel, m) == 0;
    LastRun(dev, i, fuel, m);
  }

  lemma LastRun(dev: Device, i: nat, fuel: nat, m: Mem)
    requires i < MAX_DEPTH
    ensures LevelsRun(PROGRAM, dev, [Region(i)], i, fuel, m) == LevelRun(PROGRAM, dev, Region(i), i, fuel, m)
  {
    hide LevelRun, EvalList;
    assert [Region(i)][1..] == [];
    assert forall m' :: LevelsRun(PROGRAM, dev, [], i, fuel, m') == 0;
  }

  // ----- the branch that is not bare ---------------------------------------------------------------

  lemma NotBare()
    ensures !Bare(PROGRAM, (MAX_DEPTH, 1))
  {
    InstrsAre(MAX_DEPTH);
    assert Tiles(TARGET, InstrAt(MAX_DEPTH)) == 1;
  }

  lemma {:induction false} NoRoom(i: nat)
    requires i <= LAST
    ensures !Fits(PROGRAM, (i, 1), i)
    decreases MAX_DEPTH - i
  {
    hide Bare;
    InstrsAre(i);
    if i < LAST {
      NoRoom(i + 1);
    } else {
      NotBare();
    }
    assert !InstrFits(PROGRAM, i, i);
  }

  lemma NoMap(i: nat)
    requires i <= MAX_DEPTH
    ensures i < |PROGRAM.instrs| && (Schedulable(TARGET, PROGRAM.instrs[i]) ==> !IsMap(TARGET, PROGRAM.instrs[i]))
  {
    InstrsAre(i);
  }

  lemma NothingViewed()
    ensures ViewsSafe(PROGRAM)
  {
    hide Instrs, InstrAt;
    InstrsAre(0);
    forall part | CleanPhase(PROGRAM, part)
      ensures ViewSafe(PROGRAM, part)
    {
      forall x | 0 <= x < |part|
        ensures !IsMap(TARGET, PROGRAM.instrs[part[x]])
      {
        assert Schedulable(TARGET, PROGRAM.instrs[part[x]]);
        NoMap(part[x]);
      }
    }
    assert RangeSafe(PROGRAM, (0, PROGRAM.mainLen));
    forall i | 0 <= i < |PROGRAM.instrs| && PROGRAM.instrs[i].IsRegion()
      ensures RegionSafe(PROGRAM, i)
    {
    }
  }

  /** For all lawful kernels, lane counts, interleavings and memories the host engine halts with the
      interpreter's memory and batch count, although the program does not fit. */
  lemma RoomNotNeeded(n: pos, dev: Device, s: Schedule, owner: seq<nat>, blocks: seq<Block>, jobs: seq<Job>,
                      pick: (nat, seq<seq<Step>>) -> seq<nat>, fuel: nat, m: Mem) returns (r: nat)
    requires Built(PROGRAM, n, s, owner, blocks, jobs) && KernelsOk(PROGRAM, dev) && dev.walker == HostDispatch
    requires PickOk(Machine(HostDispatch, dev, s.tasks, s.laneStreams, pick))
    ensures !Fits(PROGRAM, (0, PROGRAM.mainLen), 0)
    ensures Execute(PROGRAM, Unlimited(dev), fuel, m) == Done(m) && PhasesRun(PROGRAM, Unlimited(dev), fuel, m) == 0
    ensures HaltsAt(Machine(HostDispatch, dev, s.tasks, s.laneStreams, pick), Initial(s, m), r, m, 0)
  {
    hide Built, KernelsOk, ViewsSafe, PickOk, StateOk, EvalRange, RangeRun, HaltsAt, Rounds, Segmented, CrashesAt,
        RunsFor, Fits;
    NothingViewed();
    NoRoom(0);
    NothingDone(dev, 0, fuel, m);
    NothingDone(Unlimited(dev), 0, fuel, m);
    NothingRun(dev, 0, fuel, m);
    NothingRun(Unlimited(dev), 0, fuel, m);
    EngineIsReference(PROGRAM, n, dev, s, owner, blocks, jobs, pick, fuel, m);
    r :| HaltsAt(Machine(HostDispatch, dev, s.tasks, s.laneStreams, pick), Initial(s, m), r, m, 0);
  }
}
