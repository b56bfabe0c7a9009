/** How often an instruction is laid out, counted in the program: once for every way from the root
    to a range that holds it. The coverage check accepts a schedule exactly when no instruction
    with tiles is laid out twice. */
module SharedRanges {
  import opened Arith
  import opened Isa
  import opened Streams
  import opened OnePhase
  import opened Reference
  import opened Levels
  import opened Layout
  import opened Scheduler
  import opened Coverage

  /** How many of the ranges that are laid out for `r`, itself included, hold instruction `i`. */
  function RangeHolds(p: Program, r: (nat, nat), depth: nat, i: nat): nat
    decreases MAX_DEPTH - depth, 2, 0
  {
    (if r.0 <= i < r.0 + r.1 then 1 else 0) + ListHolds(p, Range(r.0, r.1), depth, i)
  }

  function ListHolds(p: Program, indices: seq<nat>, depth: nat, i: nat): nat
    decreases MAX_DEPTH - depth, 1, |indices|
  {
    if indices == [] then 0 else InstrHolds(p, indices[0], depth, i) + ListHolds(p, indices[1..], depth, i)
  }

  function InstrHolds(p: Program, j: nat, depth: nat, i: nat): nat
    decreases MAX_DEPTH - depth, 0, 0
  {
    if j < |p.instrs| && p.instrs[j].IsRegion() && depth < MAX_DEPTH then
      RangeHolds(p, FirstRange(p.instrs[j]), depth + 1, i) + RangeHolds(p, SecondRange(p.instrs[j]), depth + 1, i)
    else 0
  }

  lemma {:induction false} ListHoldsConcat(p: Program, a: seq<nat>, b: seq<nat>, depth: nat, i: nat)
    ensures ListHolds(p, a + b, depth, i) == ListHolds(p, a, depth, i) + ListHolds(p, b, depth, i)
    decreases |a|
  {
    hide InstrHolds;
    if a == [] {
      assert a + b == b;
    } else {
      assert (a + b)[1..] == a[1..] + b;
      ListHoldsConcat(p, a[1..], b, depth, i);
    }
  }

  lemma {:induction false} LiveHolds(p: Program, indices: seq<nat>, depth: nat, i: nat)
    requires InRange(p, indices)
    ensures ListHolds(p, Live(p, indices), depth, i) == ListHolds(p, indices, depth, i)
    decreases |indices|
  {
    hide RangeHolds;
    if indices == [] {
    } else {
      LiveHolds(p, indices[1..], depth, i);
      var rest := Live(p, indices[1..]);
      assert ([indices[0]] + rest)[1..] == rest;
    }
  }

  lemma {:induction false} ComputeHolds(p: Program, part: seq<nat>, depth: nat, i: nat)
    requires AllSchedulable(p, part)
    ensures ListHolds(p, part, depth, i) == 0
    decreases |part|
  {
    if part == [] {
    } else {
      ComputeHolds(p, part[1..], depth, i);
    }
  }

  // ----- jobs and blocks -----------------------------------------------------------------------------

  predicate JobsKnown(jobs: seq<Job>, js: seq<nat>) {
    forall x | 0 <= x < |js| :: js[x] < |jobs|
  }

  /** What the regions of some jobs hold. */
  function JobsHold(p: Program, jobs: seq<Job>, js: seq<nat>, i: nat): nat
    requires JobsKnown(jobs, js)
  {
    if js == [] then 0
    else
      var j := jobs[js[|js| - 1]];
      JobsHold(p, jobs, js[..|js| - 1], i) + InstrHolds(p, j.idx, j.depth, i)
  }

  lemma {:induction false} JobsHoldConcat(p: Program, jobs: seq<Job>, a: seq<nat>, b: seq<nat>, i: nat)
    requires JobsKnown(jobs, a) && JobsKnown(jobs, b)
    ensures JobsKnown(jobs, a + b)
    ensures JobsHold(p, jobs, a + b, i) == JobsHold(p, jobs, a, i) + JobsHold(p, jobs, b, i)
  {
    hide InstrHolds;
    if b == [] {
      assert a + b == a;
    } else {
      var k := |b| - 1;
      assert (a + b)[..|a + b| - 1] == a + b[..k];
      JobsHoldConcat(p, jobs, a, b[..k], i);
    }
  }

  /** The levels of a block hold what their jobs hold. */
  lemma {:induction false} LevelsHold(p: Program, owner: seq<nat>, jobs: seq<Job>, range: (nat, nat), depth: nat,
                                      lvls: seq<Lvl>, i: nat)
    requires forall k | 0 <= k < |lvls| :: LvlOk(p, owner, jobs, range, depth, lvls[k])
    ensures JobsKnown(jobs, LvlJobs(lvls))
    ensures ListHolds(p, LvlInstrs(lvls), depth, i) == JobsHold(p, jobs, LvlJobs(lvls), i)
  {
    hide InstrHolds, LvlOk;
    if lvls == [] {
    } else {
      LevelsHold(p, owner, jobs, range, depth, lvls[1..], i);
      OneLevelHolds(p, owner, jobs, range, depth, lvls[0], i);
      ListHoldsConcat(p, FirstInstrs(lvls[0]), LvlInstrs(lvls[1..]), depth, i);
      JobsHoldConcat(p, jobs, JobsAt(lvls[0]), LvlJobs(lvls[1..]), i);
    }
  }

  lemma OneLevelHolds(p: Program, owner: seq<nat>, jobs: seq<Job>, range: (nat, nat), depth: nat, lvl: Lvl, i: nat)
    requires LvlOk(p, owner, jobs, range, depth, lvl)
    ensures JobsKnown(jobs, JobsAt(lvl))
    ensures ListHolds(p, FirstInstrs(lvl), depth, i) == JobsHold(p, jobs, JobsAt(lvl), i)
  {
    hide InstrHolds;
    match lvl {
      case Work(part, _) =>
        ComputeHolds(p, part, depth, i);
      case Ctrl(idx, j) =>
        assert [idx][1..] == [] && [j][..0] == [];
        assert JobsHold(p, jobs, [j][..0], i) == 0 && ListHolds(p, [idx][1..], depth, i) == 0;
    }
  }

  function BlockHolds(p: Program, b: Block, i: nat): nat {
    RangeHolds(p, b.range, b.depth, i)
  }

  /** A laid-out range holds the instruction itself or in the regions of its levels. */
  lemma BlockHoldsMeans(p: Program, n: pos, lanes: seq<seq<Entry>>, owner: seq<nat>, jobs: seq<Job>, b: Block, i: nat)
    requires BlockOk(p, n, lanes, owner, jobs, b)
    ensures JobsKnown(jobs, LvlJobs(b.lvls))
    ensures BlockHolds(p, b, i) == (if InRangeOf(b, i) then 1 else 0) + JobsHold(p, jobs, LvlJobs(b.lvls), i)
  {
    LevelsOfBlock(p, n, lanes, owner, jobs, b);
    hide RowsOk, Nested, LevelsFrom, LvlOk, ListHolds, JobsHold, LvlJobs, LvlInstrs, Live;
    RangeInBounds(p, b);
    LiveHolds(p, Range(b.range.0, b.range.1), b.depth, i);
    LevelsHold(p, owner, jobs, b.range, b.depth, b.lvls, i);
  }

  lemma LevelsOfBlock(p: Program, n: pos, lanes: seq<seq<Entry>>, owner: seq<nat>, jobs: seq<Job>, b: Block)
    requires BlockOk(p, n, lanes, owner, jobs, b)
    ensures forall k | 0 <= k < |b.lvls| :: LvlOk(p, owner, jobs, b.range, b.depth, b.lvls[k])
  {
    hide LvlOk, Nested, LevelsFrom, Live, RowAt;
    forall k | 0 <= k < |b.lvls|
      ensures LvlOk(p, owner, jobs, b.range, b.depth, b.lvls[k])
    {
      assert LvlAt(p, owner, jobs, b, k);
    }
  }

  /** A job's region holds what its two blocks hold. */
  lemma JobHolds(p: Program, n: pos, s: Schedule, owner: seq<nat>, blocks: seq<Block>, jobs: seq<Job>, j: nat, i: nat)
    requires Built(p, n, s, owner, blocks, jobs) && j < |jobs|
    ensures 2 * j + 2 < |blocks|
    ensures InstrHolds(p, jobs[j].idx, jobs[j].depth, i)
         == BlockHolds(p, blocks[2 * j + 1], i) + BlockHolds(p, blocks[2 * j + 2], i)
  {
    hide BlockOk, RangeHolds, Tiled, Nested, EntryAt;
    assert JobOk(p, n, s.laneStreams, blocks, jobs[j]);
  }

  function BlocksHold(p: Program, blocks: seq<Block>, m: nat, i: nat): nat
    requires m <= |blocks|
  {
    if m == 0 then 0 else BlocksHold(p, blocks, m - 1, i) + BlockHolds(p, blocks[m - 1], i)
  }

  /** All jobs together hold what all blocks but the root hold. */
  lemma {:induction false} JobsAreBlocks(p: Program, n: pos, s: Schedule, owner: seq<nat>, blocks: seq<Block>,
                                         jobs: seq<Job>, h: nat, i: nat)
    requires Built(p, n, s, owner, blocks, jobs) && h <= |jobs|
    ensures 2 * h + 1 <= |blocks| && JobsKnown(jobs, Range(0, h))
    ensures BlocksHold(p, blocks, 2 * h + 1, i) == BlockHolds(p, blocks[0], i) + JobsHold(p, jobs, Range(0, h), i)
  {
    hide Built, BlockHolds, InstrHolds;
    if h == 0 {
      SomeBlock(p, n, s, owner, blocks, jobs);
    } else {
      JobsAreBlocks(p, n, s, owner, blocks, jobs, h - 1, i);
      JobHolds(p, n, s, owner, blocks, jobs, h - 1, i);
      assert Range(0, h)[..h - 1] == Range(0, h - 1);
    }
  }

  /** All blocks together hold the instruction as often as it is in a range, and what their jobs
      hold. */
  lemma {:induction false} BlocksAreJobs(p: Program, n: pos, s: Schedule, owner: seq<nat>, blocks: seq<Block>,
                                         jobs: seq<Job>, m: nat, i: nat)
    requires Built(p, n, s, owner, blocks, jobs) && m <= |blocks|
    ensures JobsKnown(jobs, BlockJobs(blocks[..m]))
    ensures BlocksHold(p, blocks, m, i) == Ranges(blocks, i, m) + JobsHold(p, jobs, BlockJobs(blocks[..m]), i)
  {
    hide Built, BlockHolds, InstrHolds, BlockOk, InRangeOf, LvlJobs;
    if m == 0 {
    } else {
      BlocksAreJobs(p, n, s, owner, blocks, jobs, m - 1, i);
      BlockOfBuilt(p, n, s, owner, blocks, jobs, m - 1);
      BlockHoldsMeans(p, n, s.laneStreams, owner, jobs, blocks[m - 1], i);
      assert blocks[..m][..m - 1] == blocks[..m - 1];
      JobsHoldConcat(p, jobs, BlockJobs(blocks[..m - 1]), LvlJobs(blocks[m - 1].lvls), i);
    }
  }

  /** The laid-out ranges that hold an instruction are those counted from the root. */
  lemma RangesCounted(p: Program, n: pos, s: Schedule, owner: seq<nat>, blocks: seq<Block>, jobs: seq<Job>, i: nat)
    requires Built(p, n, s, owner, blocks, jobs) && Traced(owner, |jobs|, blocks)
    ensures Ranges(blocks, i, |blocks|) == RangeHolds(p, (0, p.mainLen), 0, i)
  {
    hide Built, Owned, JobsHold, Ranges, RangeHolds, BlocksHold, BlockJobs, JobsKnown;
    RootBlock(p, n, s, owner, blocks, jobs);
    JobsAreBlocks(p, n, s, owner, blocks, jobs, |jobs|, i);
    BlocksAreJobs(p, n, s, owner, blocks, jobs, |blocks|, i);
    assert blocks[..|blocks|] == blocks;
  }

  lemma RootBlock(p: Program, n: pos, s: Schedule, owner: seq<nat>, blocks: seq<Block>, jobs: seq<Job>)
    requires Built(p, n, s, owner, blocks, jobs)
    ensures |blocks| == 2 * |jobs| + 1 && blocks[0].range == (0, p.mainLen) && blocks[0].depth == 0
  {
    hide TableOk, Tiled;
  }

  // ----- the check ---------------------------------------------------------------------------------------

  /** Instruction `i` has no tiles, or at most one of the ranges laid out from the root holds it. */
  predicate HeldOnce(p: Program, i: nat) {
    i < |p.instrs| && Schedulable(p.tg, p.instrs[i]) && Tiles(p.tg, p.instrs[i]) > 0 ==>
      RangeHolds(p, (0, p.mainLen), 0, i) <= 1
  }

  /** The coverage check accepts what the scheduler builds for a program exactly when no
      instruction with tiles is held twice. */
  lemma CoverageExact(p: Program, n: pos, s: Schedule, owner: seq<nat>, blocks: seq<Block>, jobs: seq<Job>)
    requires Built(p, n, s, owner, blocks, jobs) && Traced(owner, |jobs|, blocks)
    ensures |s.tasks| < TASK_FOR && forall t | 0 <= t < |s.tasks| :: s.tasks[t].tileOp <= MAX_TILE_OP
    ensures AllCovered(p.tg, s.tasks, s.laneStreams) <==> forall i | 0 <= i < |p.instrs| :: HeldOnce(p, i)
  {
    hide Built, AllCovered, Owned, RangeHolds, Ranges, Schedulable, Tiles;
    AcceptedWhenOnce(p, n, s, owner, blocks, jobs);
    forall i: nat
      ensures LaidOnce(p, blocks, i) <==> HeldOnce(p, i)
    {
      RangesCounted(p, n, s, owner, blocks, jobs, i);
    }
  }

  // ----- two loops over one range -----------------------------------------------------------------------

  /** Two loops of one trip with the same body, one operation with one tile. */
  const LOOP := Instr(For, 0, 0, 1, 2, 1, 0, 0, 0)
  const BODY := Instr(Ext(0), 1, 0, 0, 1, 0, 0, 0, 0)
  const COMBINE := Task(TILE_REDUCE_COMB, 1, 0, 0, 0, 0, 0, 0, 0, 0, 0, 0, 0, 0)
  const TARGET := Target(ins => {}, ins => COMBINE, 1, 1, op => 1.0)
  const PROGRAM := Program([LOOP, LOOP, BODY], 2, TARGET, true)

  lemma BodyTiles()
    ensures Schedulable(TARGET, BODY) && Tiles(TARGET, BODY) == 1
  {
  }

  lemma LoopNests(i: nat)
    requires i < 2
    ensures InstrNested(PROGRAM, i, 0)
  {
    BodyTiles();
    assert InstrNested(PROGRAM, 2, 1);
    assert SecondRange(LOOP) == (2, 1) && FirstRange(LOOP) == (0, 0);
    assert Nested(PROGRAM, (2, 1), 1) && Nested(PROGRAM, (0, 0), 1);
  }

  lemma ProgramNests()
    ensures Nested(PROGRAM, (0, PROGRAM.mainLen), 0)
  {
    LoopNests(0);
    LoopNests(1);
    hide InstrNested;
  }

  lemma LoopHolds()
    ensures InstrHolds(PROGRAM, 0, 0, 2) == InstrHolds(PROGRAM, 1, 0, 2) == 1
  {
    assert SecondRange(LOOP) == (2, 1) && FirstRange(LOOP) == (0, 0);
    assert Range(2, 1) == [2] && [2][1..] == [] && Range(0, 0) == [];
    assert ListHolds(PROGRAM, [2], 1, 2) == InstrHolds(PROGRAM, 2, 1, 2) + ListHolds(PROGRAM, [], 1, 2) == 0;
    assert RangeHolds(PROGRAM, (2, 1), 1, 2) == 1 && RangeHolds(PROGRAM, (0, 0), 1, 2) == 0;
  }

  lemma BodyHeldTwice()
    ensures !HeldOnce(PROGRAM, 2)
  {
    hide InstrHolds;
    BodyTiles();
    LoopHolds();
    assert Range(0, 2) == [0, 1] && [0, 1][1..] == [1] && [1][1..] == [];
    assert ListHolds(PROGRAM, [1], 0, 2) == 1 + ListHolds(PROGRAM, [], 0, 2) == 1;
    assert ListHolds(PROGRAM, [0, 1], 0, 2) == 1 + ListHolds(PROGRAM, [1], 0, 2) == 2;
  }

  /** Whatever is built for this program, the check rejects it. */
  lemma SharedBodyRejected(n: pos, s: Schedule, owner: seq<nat>, blocks: seq<Block>, jobs: seq<Job>)
    requires Built(PROGRAM, n, s, owner, blocks, jobs) && Traced(owner, |jobs|, blocks)
    ensures |s.tasks| < TASK_FOR && forall t | 0 <= t < |s.tasks| :: s.tasks[t].tileOp <= MAX_TILE_OP
    ensures !AllCovered(TARGET, s.tasks, s.laneStreams)
  {
    hide Built, Traced, AllCovered, HeldOnce;
    BodyHeldTwice();
    CoverageExact(PROGRAM, n, s, owner, blocks, jobs);
  }

  /** So does the check that is run on what the scheduler builds, on every lane count. */
  method ScheduleSharedBody(n: pos)
    returns (s: Schedule, ok: bool, ghost owner: seq<nat>, ghost blocks: seq<Block>, ghost jobs: seq<Job>)
    ensures Built(PROGRAM, n, s, owner, blocks, jobs) && !ok
    ensures |s.tasks| < TASK_FOR && forall t | 0 <= t < |s.tasks| :: s.tasks[t].tileOp <= MAX_TILE_OP
    ensures ok == AllCovered(TARGET, s.tasks, s.laneStreams)
  {
    hide Built, Traced, AllCovered;
    ProgramNests();
    s, owner, blocks, jobs := ScheduleProgram(PROGRAM, n);
    SharedBodyRejected(n, s, owner, blocks, jobs);
    ok := CheckCoverage(TARGET, s.tasks, s.laneStreams);
  }
}
