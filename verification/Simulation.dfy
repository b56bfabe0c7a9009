/** The frame-stack machine on a built schedule does what the recursive interpreter does. */
module Simulation {
  import opened Arith
  import opened Isa
  import opened Interleave
  import opened Streams
  import opened Packing
  import opened OnePhase
  import opened PhaseUnits
  import opened Reference
  import opened Levels
  import opened PhaseCount
  import opened Layout
  import opened Scheduler
  import opened Engine
  import opened RoundLaws

  // ----- batches name tasks, phases name instructions -----------------------------------------

  /** The same lanes, with each task replaced by the instruction it was made from. */
  ghost predicate Renamed(owner: seq<nat>, byTask: seq<seq<Step>>, byInstr: seq<seq<Step>>) {
    && |byTask| == |byInstr|
    && forall L {:trigger LaneRenamed(owner, byTask[L], byInstr[L])} | 0 <= L < |byTask| ::
      LaneRenamed(owner, byTask[L], byInstr[L])
  }

  predicate LaneRenamed(owner: seq<nat>, s: seq<Step>, t: seq<Step>) {
    && |s| == |t|
    && forall x | 0 <= x < |s| :: s[x].instr < |owner| && t[x] == Step(owner[s[x].instr], s[x].tile)
  }

  lemma {:induction false} EntriesRenamed(owner: seq<nat>, es: seq<Entry>)
    requires EntriesOk(owner, es)
    ensures EntriesOk(Ids(|owner|), es)
    ensures LaneRenamed(owner, EntrySteps(Ids(|owner|), es), EntrySteps(owner, es))
  {
    if es == [] {
    } else {
      EntriesRenamed(owner, es[1..]);
    }
  }

  ghost predicate SameTasks(mc: Machine, p: Program, owner: seq<nat>) {
    && |mc.tasks| == |owner|
    && forall t | 0 <= t < |owner| :: owner[t] < |p.instrs| && mc.tasks[t] == TaskOf(p.tg, p.instrs[owner[t]])
  }

  lemma {:induction false} WeaveRenamed(mc: Machine, p: Program, owner: seq<nat>, byTask: seq<seq<Step>>,
                                        byInstr: seq<seq<Step>>, sched: seq<nat>, m: Mem)
    requires SameTasks(mc, p, owner) && Renamed(owner, byTask, byInstr) && ValidSched(byTask, sched)
    ensures ValidSched(byInstr, sched)
    ensures Run(TaskAct(mc), Weave(byTask, sched), m) == Run(Act(p, mc.dev), Weave(byInstr, sched), m)
    decreases |sched|
  {
    if sched == [] {
      forall L | 0 <= L < |byInstr|
        ensures byInstr[L] == []
      {
        assert LaneRenamed(owner, byTask[L], byInstr[L]);
      }
    } else {
      var L := sched[0];
      assert LaneRenamed(owner, byTask[L], byInstr[L]);
      var head := byTask[L][0];
      assert byInstr[L][0] == Step(owner[head.instr], head.tile);
      forall R | 0 <= R < |byTask|
        ensures LaneRenamed(owner, Interleave.Advance(byTask, L)[R], Interleave.Advance(byInstr, L)[R])
      {
        assert LaneRenamed(owner, byTask[R], byInstr[R]);
      }
      WeaveRenamed(mc, p, owner, Interleave.Advance(byTask, L), Interleave.Advance(byInstr, L), sched[1..],
          TaskAct(mc)(head, m));
    }
  }

  // ----- the setting ------------------------------------------------------------------------

  /** A program, its schedule, what the schedule was built from, and a machine to run it. */
  datatype World = World(p: Program, n: pos, dev: Device, s: Schedule, owner: seq<nat>, blocks: seq<Block>,
      jobs: seq<Job>, mc: Machine)

  /** Every phase of the range keeps the writers of viewed operands out. */
  ghost predicate RangeSafe(p: Program, r: (nat, nat)) {
    forall part | FromRange(p, r, part) && CleanPhase(p, part) :: ViewSafe(p, part)
  }

  /** The root and every region range are safe. */
  ghost predicate ViewsSafe(p: Program) {
    && RangeSafe(p, (0, p.mainLen))
    && forall i {:trigger RegionSafe(p, i)} | 0 <= i < |p.instrs| && p.instrs[i].IsRegion() :: RegionSafe(p, i)
  }

  ghost predicate RegionSafe(p: Program, i: nat)
    requires i < |p.instrs|
  {
    RangeSafe(p, FirstRange(p.instrs[i])) && RangeSafe(p, SecondRange(p.instrs[i]))
  }

  ghost predicate WorldOk(w: World) {
    && Built(w.p, w.n, w.s, w.owner, w.blocks, w.jobs)
    && KernelsOk(w.p, w.dev) && ViewsSafe(w.p)
    && PickOk(w.mc) && w.mc.dev == w.dev && w.mc.kind == w.dev.walker && w.mc.tasks == w.s.tasks
      && w.mc.streams == w.s.laneStreams
  }

  lemma BlockFacts(w: World, b: nat)
    requires WorldOk(w) && b < |w.blocks|
    ensures |w.mc.streams| == w.n && BlockOk(w.p, w.n, w.mc.streams, w.owner, w.jobs, w.blocks[b])
    ensures |w.owner| < TASK_FOR && SameTasks(w.mc, w.p, w.owner)
  {
  }

  lemma JobFacts(w: World, j: nat)
    requires WorldOk(w) && j < |w.jobs|
    ensures |w.mc.streams| == w.n && w.jobs[j].done && JobOk(w.p, w.n, w.mc.streams, w.blocks, w.jobs[j])
    ensures RegionSafe(w.p, w.jobs[j].idx)
  {
    assert JobOk(w.p, w.n, w.mc.streams, w.blocks, w.jobs[j]);
  }

  // ----- a phase is one slide -------------------------------------------------------------------

  predicate TileRun(stream: seq<Entry>, lo: nat, hi: nat) {
    hi <= |stream| && forall x | lo <= x < hi :: stream[x].IsTile()
  }

  lemma BaseOk(base: seq<Frame>, f: Frame, g: Frame)
    requires StackOk(base + [f])
    ensures StackOk(base + [g])
  {
    var stack, other := base + [f], base + [g];
    forall i | 0 <= i < |other| - 1
      ensures other[i].pc < other[i].end
    {
      assert other[i] == stack[i];
    }
  }

  lemma TileMove(kind: Walker, stream: seq<Entry>, base: seq<Frame>, f: Frame, m: Mem)
    requires StackOk(base + [f]) && f.pc < f.end && f.pc < |stream| && stream[f.pc].IsTile()
    ensures MoveLane(kind, stream, base + [f], m) == Go(base + [f.(pc := f.pc + 1)], [f.pc])
  {
    assert Bump(base + [f]) == base + [f.(pc := f.pc + 1)];
  }

  /** Walking over tile entries collects their positions. */
  lemma {:induction false} WalkTiles(kind: Walker, stream: seq<Entry>, base: seq<Frame>, f: Frame, to: nat, m: Mem)
    requires TileRun(stream, f.pc, to) && f.pc <= to <= f.end
    requires StackOk(base + [f])
    ensures StackOk(base + [f.(pc := to)])
    ensures WalkLane(kind, stream, base + [f], m)
        == EmitAll(Upto(f.pc, to - f.pc), WalkLane(kind, stream, base + [f.(pc := to)], m))
    decreases if f.pc <= to then to - f.pc else 0
  {
    hide WalkLane, MoveLane, StackOk;
    BaseOk(base, f, f.(pc := to));
    var rest := WalkLane(kind, stream, base + [f.(pc := to)], m);
    if f.pc >= to {
    } else {
      var next := f.(pc := f.pc + 1);
      BaseOk(base, f, next);
      TileMove(kind, stream, base, f, m);
      MoveWalks(kind, stream, base + [f], m);
      WalkTiles(kind, stream, base, next, to, m);
      EmitTwice([f.pc], Upto(f.pc + 1, to - f.pc - 1), rest);
      assert [f.pc] + Upto(f.pc + 1, to - f.pc - 1) == Upto(f.pc, to - f.pc);
    }
  }

  // ----- standing inside a block ------------------------------------------------------------------

  /** What surrounds a block in every lane: the frames below, the control entry that opened it,
      and the phase of its frame. */
  datatype Ctx = Ctx(base: seq<seq<Frame>>, widx: seq<int>, phase: int)

  predicate CtxOk(n: nat, ctx: Ctx, depth: nat) {
    && |ctx.base| == |ctx.widx| == n && depth <= MAX_DEPTH
    && forall L {:trigger LaneCtxOk(ctx.base[L], depth)} | 0 <= L < n :: LaneCtxOk(ctx.base[L], depth)
  }

  predicate LaneCtxOk(base: seq<Frame>, depth: nat) {
    |base| == depth && forall i | 0 <= i < |base| :: base[i].pc < base[i].end
  }

  /** Each lane at its position `row[L]` of the block. */
  function At(n: nat, ctx: Ctx, b: Block, row: seq<nat>): (stacks: seq<seq<Frame>>)
    requires |ctx.base| == |ctx.widx| == |row| == n && Shaped(n, b)
    ensures |stacks| == n
    ensures forall L {:trigger stacks[L]} | 0 <= L < n ::
              stacks[L] == ctx.base[L] + [Frame(row[L], b.at[|b.lvls|][L], ctx.widx[L], ctx.phase)]
  {
    seq(n, L requires 0 <= L < n => ctx.base[L] + [Frame(row[L], b.at[|b.lvls|][L], ctx.widx[L], ctx.phase)])
  }

  lemma AtOk(w: World, ctx: Ctx, b: Block, row: seq<nat>, pend: seq<seq<nat>>, m: Mem, d: nat)
    requires CtxOk(w.n, ctx, b.depth) && |row| == w.n && Shaped(w.n, b) && |pend| == |w.mc.streams| == w.n
    ensures StateOk(w.mc, State(At(w.n, ctx, b, row), pend, m, d))
  {
    var stacks := At(w.n, ctx, b, row);
    forall L | 0 <= L < w.n
      ensures StackOk(stacks[L])
    {
      assert LaneCtxOk(ctx.base[L], b.depth);
    }
  }

  /** Where each lane stands after the body of level `k`, before its closing barrier. */
  function After(n: nat, b: Block, k: nat): (row: seq<nat>)
    requires Shaped(n, b) && k < |b.lvls|
    ensures |row| == n
  {
    seq(n, L requires 0 <= L < n =>
        if k + 1 < |b.lvls| && b.at[k + 1][L] > 0 then b.at[k + 1][L] - 1 else b.at[k + 1][L])
  }

  /** What each lane collects at level `k`, a level of compute. */
  function LevelPend(n: pos, b: Block, k: nat): (pend: seq<seq<nat>>)
    requires Shaped(n, b) && k < |b.lvls| && b.lvls[k].Work?
    ensures |pend| == n
    ensures forall L | 0 <= L < n :: pend[L] == Upto(b.at[k][L], |Packed(b.lvls[k].units, n)[L]|)
  {
    var lanes := Packed(b.lvls[k].units, n);
    seq(n, L requires 0 <= L < n => Upto(b.at[k][L], |lanes[L]|))
  }

  lemma SplitSlice(stream: seq<Entry>, lo: nat, hi: nat, body: seq<Entry>, closing: seq<Entry>)
    requires lo <= hi <= |stream| && stream[lo..hi] == body + closing
    ensures lo + |body| <= hi && hi == lo + |body| + |closing|
    ensures stream[lo..lo + |body|] == body && stream[lo + |body|..hi] == closing
  {
    var slice := stream[lo..hi];
    assert stream[lo..lo + |body|] == slice[..|body|];
    assert stream[lo + |body|..hi] == slice[|body|..];
  }

  lemma TileEntries(stream: seq<Entry>, lo: nat, body: seq<Entry>, owner: seq<nat>)
    requires lo + |body| <= |stream| && stream[lo..lo + |body|] == body && EntriesOk(owner, body) && |owner| < TASK_FOR
    ensures TileRun(stream, lo, lo + |body|)
  {
    forall x | lo <= x < lo + |body|
      ensures stream[x].IsTile()
    {
      assert stream[x] == stream[lo..lo + |body|][x - lo];
      assert body[x - lo] in body;
    }
  }

  /** One lane of a level of compute: its entries, then the closing barrier if any. */
  lemma WorkLane(w: World, bid: nat, k: nat, L: nat)
    requires WorldOk(w) && bid < |w.blocks| && L < w.n
    requires Shaped(w.n, w.blocks[bid]) && k < |w.blocks[bid].lvls| && w.blocks[bid].lvls[k].Work?
    ensures |w.mc.streams| == w.n
    ensures var b, stream := w.blocks[bid], w.mc.streams[L];
            var body := Packed(b.lvls[k].units, w.n)[L];
            && After(w.n, b, k)[L] == b.at[k][L] + |body| <= b.at[k + 1][L] <= b.at[|b.lvls|][L]
            && b.at[k + 1][L] <= |stream|
            && stream[b.at[k][L]..After(w.n, b, k)[L]] == body
            && stream[After(w.n, b, k)[L]..b.at[k + 1][L]] == Closing(k, |b.lvls|)
            && TileRun(stream, b.at[k][L], After(w.n, b, k)[L])
  {
    hide WorldOk, UnitsFor, Nested, LevelsFrom, Packed, LvlOk, SameTasks, Live, LvlInstrs, LevelsOf;
    BlockFacts(w, bid);
    var b, stream := w.blocks[bid], w.mc.streams[L];
    var body := Packed(b.lvls[k].units, w.n)[L];
    RowsAscend(w.p, w.n, w.mc.streams, w.owner, w.jobs, b, |b.lvls|, k + 1, L);
    assert RowAt(w.n, w.mc.streams, w.jobs, b, |b.lvls|, k, L);
    SplitSlice(stream, b.at[k][L], b.at[k + 1][L], body, Closing(k, |b.lvls|));
    WorkEntriesOk(w, bid, k, L);
    hide RowAt, BlockOk, EntriesOk;
    TileEntries(stream, b.at[k][L], body, w.owner);
  }

  lemma WorkEntriesOk(w: World, bid: nat, k: nat, L: nat)
    requires WorldOk(w) && bid < |w.blocks| && L < w.n
    requires k < |w.blocks[bid].lvls| && w.blocks[bid].lvls[k].Work?
    ensures EntriesOk(w.owner, Packed(w.blocks[bid].lvls[k].units, w.n)[L])
  {
    BlockFacts(w, bid);
    hide WorldOk;
    var b := w.blocks[bid];
    assert LvlAt(w.p, w.owner, w.jobs, b, k);
    UnitsForTids(w.p, w.owner, b.lvls[k].part, b.lvls[k].units);
    PackedIsOk(w.owner, b.lvls[k].units, w.n);
  }

  lemma WorkLaneWalk(w: World, ctx: Ctx, bid: nat, k: nat, m: Mem, L: nat)
    requires WorldOk(w) && bid < |w.blocks| && CtxOk(w.n, ctx, w.blocks[bid].depth) && L < w.n
    requires Shaped(w.n, w.blocks[bid]) && k < |w.blocks[bid].lvls| && w.blocks[bid].lvls[k].Work?
    ensures |w.mc.streams| == w.n
    ensures var b := w.blocks[bid];
            var from, next := At(w.n, ctx, b, b.at[k])[L], At(w.n, ctx, b, After(w.n, b, k))[L];
            && StackOk(from) && StackOk(next)
            && WalkLane(w.mc.kind, w.mc.streams[L], from, m)
              == EmitAll(LevelPend(w.n, b, k)[L], WalkLane(w.mc.kind, w.mc.streams[L], next, m))
  {
    hide WorldOk, WalkLane, Packed;
    var b := w.blocks[bid];
    WorkLane(w, bid, k, L);
    assert LaneCtxOk(ctx.base[L], b.depth);
    var f := Frame(b.at[k][L], b.at[|b.lvls|][L], ctx.widx[L], ctx.phase);
    WalkTiles(w.mc.kind, w.mc.streams[L], ctx.base[L], f, After(w.n, b, k)[L], m);
    assert LevelPend(w.n, b, k)[L] == Upto(f.pc, After(w.n, b, k)[L] - f.pc);
  }

  lemma WorkSlides(w: World, ctx: Ctx, bid: nat, k: nat, m: Mem, d: nat)
    requires WorldOk(w) && bid < |w.blocks| && CtxOk(w.n, ctx, w.blocks[bid].depth)
    requires Shaped(w.n, w.blocks[bid]) && k < |w.blocks[bid].lvls| && w.blocks[bid].lvls[k].Work?
    ensures var b := w.blocks[bid];
            Slides(w.mc, State(At(w.n, ctx, b, b.at[k]), Nothing(w.n), m, d),
                         State(At(w.n, ctx, b, After(w.n, b, k)), LevelPend(w.n, b, k), m, d))
  {
    var b := w.blocks[bid];
    BlockFacts(w, bid);
    hide WorldOk, BlockOk, SameTasks, Packed, WalkLane;
    var pend := LevelPend(w.n, b, k);
    var from := State(At(w.n, ctx, b, b.at[k]), Nothing(w.n), m, d);
    var next := State(At(w.n, ctx, b, After(w.n, b, k)), pend, m, d);
    AtOk(w, ctx, b, b.at[k], Nothing(w.n), m, d);
    AtOk(w, ctx, b, After(w.n, b, k), pend, m, d);
    forall L | 0 <= L < |w.mc.streams|
      ensures LaneSlides(w.mc, from, next, L)
    {
      WorkLaneWalk(w, ctx, bid, k, m, L);
      assert [] + pend[L] == pend[L];
      assert WalksVia(w.mc, from, next, L, pend[L]);
    }
  }

  // ----- running a phase --------------------------------------------------------------------------

  lemma PhaseReady(w: World, bid: nat, k: nat)
    requires WorldOk(w) && bid < |w.blocks| && RangeSafe(w.p, w.blocks[bid].range)
    requires k < |w.blocks[bid].lvls| && w.blocks[bid].lvls[k].Work?
    ensures var lvl := w.blocks[bid].lvls[k];
            && PhaseOk(w.p, w.dev, lvl.part) && UnitsFor(w.p, w.owner, lvl.part, lvl.units)
            && PackedOk(w.owner, lvl.units, w.n)
  {
    BlockFacts(w, bid);
    var b := w.blocks[bid];
    assert LvlAt(w.p, w.owner, w.jobs, b, k);
    KernelsOfSome(w.p, w.dev, b.lvls[k].part);
    UnitsForTids(w.p, w.owner, b.lvls[k].part, b.lvls[k].units);
    PackedIsOk(w.owner, b.lvls[k].units, w.n);
  }

  /** At the positions of the batch stand these entries. */
  predicate Holds(mc: Machine, batch: seq<seq<nat>>, lanes: seq<seq<Entry>>) {
    && |batch| == |lanes| == |mc.streams|
    && forall L | 0 <= L < |batch| :: Within(mc.streams[L], batch[L]) && Fetch(mc.streams[L], batch[L]) == lanes[L]
  }

  lemma PackedRenamed(mc: Machine, owner: seq<nat>, units: seq<Unit>, n: pos, batch: seq<seq<nat>>)
    requires PackedOk(owner, units, n) && |mc.tasks| == |owner| && Holds(mc, batch, Packed(units, n))
    ensures BatchOk(mc, batch)
    ensures Renamed(owner, BatchSteps(mc, batch), PackedSteps(owner, units, n))
  {
    forall L: nat | L < n
      ensures EntriesOk(Ids(|owner|), Fetch(mc.streams[L], batch[L]))
      ensures LaneRenamed(owner, EntrySteps(Ids(|owner|), Packed(units, n)[L]), PackedSteps(owner, units, n)[L])
    {
      EntriesRenamed(owner, Packed(units, n)[L]);
    }
  }

  lemma PhaseRuns(w: World, part: seq<nat>, units: seq<Unit>, batch: seq<seq<nat>>, round: nat, m: Mem)
    requires PickOk(w.mc) && SameTasks(w.mc, w.p, w.owner) && w.mc.dev == w.dev
    requires PhaseOk(w.p, w.dev, part) && UnitsFor(w.p, w.owner, part, units) && PackedOk(w.owner, units, w.n)
    requires Holds(w.mc, batch, Packed(units, w.n))
    ensures BatchOk(w.mc, batch)
    ensures RunBatch(w.mc, batch, round, m) == RunWhole(w.p, w.dev, part, m)
  {
    PackedRenamed(w.mc, w.owner, units, w.n, batch);
    var byTask, byInstr := BatchSteps(w.mc, batch), PackedSteps(w.owner, units, w.n);
    var sched := w.mc.pick(round, byTask);
    assert Answers(w.mc, round, byTask);
    WeaveRenamed(w.mc, w.p, w.owner, byTask, byInstr, sched, m);
    PhaseIsReference(w.p, w.dev, w.owner, part, units, w.n, sched, 0, 0, m);
    EvalCompute(w.p, w.dev, part, 0, 0, m);
  }

  lemma HasShape(w: World, bid: nat)
    requires WorldOk(w) && bid < |w.blocks|
    ensures |w.mc.streams| == w.n && Shaped(w.n, w.blocks[bid])
  {
    BlockFacts(w, bid);
    hide WorldOk, Nested, LevelsFrom, Live, LvlInstrs, LevelsOf, LvlAt, RowAt;
  }

  lemma WorkHolds(w: World, bid: nat, k: nat)
    requires WorldOk(w) && bid < |w.blocks| && k < |w.blocks[bid].lvls| && w.blocks[bid].lvls[k].Work?
    ensures Shaped(w.n, w.blocks[bid])
    ensures Holds(w.mc, LevelPend(w.n, w.blocks[bid], k), Packed(w.blocks[bid].lvls[k].units, w.n))
    ensures AllRuns(LevelPend(w.n, w.blocks[bid], k))
  {
    hide WorldOk, BlockOk, SameTasks, Packed, TileRun;
    HasShape(w, bid);
    var b := w.blocks[bid];
    var pend, lanes := LevelPend(w.n, b, k), Packed(b.lvls[k].units, w.n);
    forall L: nat | L < w.n
      ensures Within(w.mc.streams[L], pend[L]) && Fetch(w.mc.streams[L], pend[L]) == lanes[L]
    {
      WorkLane(w, bid, k, L);
      RunFetched(w.mc.streams[L], b.at[k][L], lanes[L]);
    }
  }

  lemma RunFetched(stream: seq<Entry>, lo: nat, es: seq<Entry>)
    requires lo + |es| <= |stream| && stream[lo..lo + |es|] == es
    ensures Within(stream, Upto(lo, |es|)) && Fetch(stream, Upto(lo, |es|)) == es
  {
    forall x | 0 <= x < |es|
      ensures es[x] == stream[lo + x]
    {
      assert es[x] == stream[lo..lo + |es|][x];
    }
  }

  /** The entries of a level of compute, once collected, stand for its instructions. */
  lemma WorkSettles(w: World, bid: nat, k: nat, stacks: seq<seq<Frame>>, m: Mem, d: nat)
    requires WorldOk(w) && bid < |w.blocks| && RangeSafe(w.p, w.blocks[bid].range)
    requires k < |w.blocks[bid].lvls| && w.blocks[bid].lvls[k].Work?
    ensures Shaped(w.n, w.blocks[bid])
    ensures var lvl := w.blocks[bid].lvls[k];
            && AllSchedulable(w.p, lvl.part)
            && Settled(w.mc, State(stacks, LevelPend(w.n, w.blocks[bid], k), m, d), RunWhole(w.p, w.dev, lvl.part, m))
  {
    var lvl := w.blocks[bid].lvls[k];
    PhaseReady(w, bid, k);
    BlockFacts(w, bid);
    WorkHolds(w, bid, k);
    assert PickOk(w.mc) && w.mc.dev == w.dev;
    hide WorldOk, BlockOk, PhaseOk, UnitsFor, PackedOk, RunBatch;
    assert AllSchedulable(w.p, lvl.part) by {
      PhaseReadySchedulable(w.p, w.dev, lvl.part);
    }
    var pend := LevelPend(w.n, w.blocks[bid], k);
    PhaseRuns(w, lvl.part, lvl.units, pend, 0, m);
    forall round: nat
      ensures RunBatch(w.mc, pend, round, m) == RunWhole(w.p, w.dev, lvl.part, m)
    {
      PhaseRuns(w, lvl.part, lvl.units, pend, round, m);
    }
  }

  lemma PhaseReadySchedulable(p: Program, dev: Device, part: seq<nat>)
    requires PhaseOk(p, dev, part)
    ensures AllSchedulable(p, part)
  {
  }

  lemma {:induction false} NothingSteps(lanes: seq<seq<Step>>, sched: seq<nat>)
    requires ValidSched(lanes, sched) && forall L | 0 <= L < |lanes| :: lanes[L] == []
    ensures Weave(lanes, sched) == []
  {
  }

  /** A batch without entries does nothing. */
  lemma EmptyBatch(mc: Machine, batch: seq<seq<nat>>, round: nat, m: Mem)
    requires PickOk(mc) && BatchOk(mc, batch) && !SomeEntry(batch)
    ensures RunBatch(mc, batch, round, m) == m
  {
    var lanes := BatchSteps(mc, batch);
    assert Answers(mc, round, lanes);
    NothingSteps(lanes, mc.pick(round, lanes));
  }

  /** With nothing collected the memory is settled as it is. */
  lemma NothingSettles(mc: Machine, stacks: seq<seq<Frame>>, n: nat, m: Mem, d: nat)
    requires PickOk(mc) && |mc.streams| == n
    ensures Settled(mc, State(stacks, Nothing(n), m, d), m)
  {
    assert BatchOk(mc, Nothing(n));
    forall round: nat
      ensures RunBatch(mc, Nothing(n), round, m) == m
    {
      EmptyBatch(mc, Nothing(n), round, m);
    }
  }

  // ----- barriers between levels --------------------------------------------------------------------

  lemma BarrierAfter(w: World, bid: nat, k: nat, L: nat)
    requires WorldOk(w) && bid < |w.blocks| && L < w.n
    requires Shaped(w.n, w.blocks[bid]) && k + 1 < |w.blocks[bid].lvls|
    ensures |w.mc.streams| == w.n
    ensures var b, stream := w.blocks[bid], w.mc.streams[L];
            && After(w.n, b, k)[L] + 1 == b.at[k + 1][L] <= b.at[|b.lvls|][L] <= |stream|
            && stream[After(w.n, b, k)[L]] == BARRIER_ENTRY
  {
    hide WorldOk, LevelsFrom, UnitsFor, Nested, Packed, SameTasks, Live, LvlInstrs, LevelsOf, TileRun;
    BlockFacts(w, bid);
    var b, stream := w.blocks[bid], w.mc.streams[L];
    var lo, hi := b.at[k][L], b.at[k + 1][L];
    RowsAscend(w.p, w.n, w.mc.streams, w.owner, w.jobs, b, |b.lvls|, k + 1, L);
    if b.lvls[k].Work? {
      WorkLane(w, bid, k, L);
      LastOf(stream, After(w.n, b, k)[L], hi);
    } else {
      assert RowAt(w.n, w.mc.streams, w.jobs, b, |b.lvls|, k, L);
      LastOf(stream, lo + 1, hi);
    }
  }

  lemma LastOf(stream: seq<Entry>, lo: nat, hi: nat)
    requires lo <= hi <= |stream| && stream[lo..hi] == [BARRIER_ENTRY]
    ensures hi == lo + 1 && stream[lo] == BARRIER_ENTRY
  {
    assert |stream[lo..hi]| == 1;
    assert stream[lo..hi][0] == BARRIER_ENTRY;
  }

  lemma BarrierMove(kind: Walker, stream: seq<Entry>, base: seq<Frame>, f: Frame, m: Mem)
    requires StackOk(base + [f]) && f.pc < f.end && f.pc < |stream| && stream[f.pc] == BARRIER_ENTRY
    ensures MoveLane(kind, stream, base + [f], m) == Event(Bar) && CanResolve(stream, base + [f], Bar, m)
    ensures Resolve(stream, base + [f], Bar, m) == base + [f.(pc := f.pc + 1)]
  {
    TopOf(base, f);
    hide Taken, BranchStart, BranchLength, Enter, Leave, Top, Below;
  }

  lemma TopOf(base: seq<Frame>, f: Frame)
    ensures Top(base + [f]) == f && Below(base + [f]) == base
    ensures Bump(base + [f]) == base + [f.(pc := f.pc + 1)]
    ensures forall g :: Replace(base + [f], g) == base + [g]
  {
    assert Below(base + [f]) == base;
  }

  lemma LaneStack(n: nat, ctx: Ctx, b: Block, row: seq<nat>, L: nat)
    requires CtxOk(n, ctx, b.depth) && |row| == n && Shaped(n, b) && L < n
    ensures At(n, ctx, b, row)[L] == ctx.base[L] + [Frame(row[L], b.at[|b.lvls|][L], ctx.widx[L], ctx.phase)]
    ensures StackOk(At(n, ctx, b, row)[L]) && LaneCtxOk(ctx.base[L], b.depth)
  {
    assert LaneCtxOk(ctx.base[L], b.depth);
  }

  lemma BarrierLane(w: World, ctx: Ctx, bid: nat, k: nat, st: State, m: Mem, L: nat)
    requires WorldOk(w) && bid < |w.blocks| && CtxOk(w.n, ctx, w.blocks[bid].depth) && L < w.n == |w.mc.streams|
    requires Shaped(w.n, w.blocks[bid]) && k + 1 < |w.blocks[bid].lvls|
    requires StateOk(w.mc, st) && st.stacks == At(w.n, ctx, w.blocks[bid], After(w.n, w.blocks[bid], k))
    ensures LaneAtEvent(w.mc, st, Bar, L)
    ensures LaneResolvesTo(w.mc, st, Bar, m, At(w.n, ctx, w.blocks[bid], w.blocks[bid].at[k + 1]), L)
  {
    hide WorldOk;
    var b := w.blocks[bid];
    BarrierAfter(w, bid, k, L);
    LaneStack(w.n, ctx, b, After(w.n, b, k), L);
    var f := Frame(After(w.n, b, k)[L], b.at[|b.lvls|][L], ctx.widx[L], ctx.phase);
    BarrierMove(w.mc.kind, w.mc.streams[L], ctx.base[L], f, st.mem);
    BarrierMove(w.mc.kind, w.mc.streams[L], ctx.base[L], f, m);
  }

  /** The barrier after a level: the batch runs, every lane steps to the next level. */
  lemma Closes(w: World, ctx: Ctx, bid: nat, k: nat, st: State, m: Mem)
    requires WorldOk(w) && bid < |w.blocks| && CtxOk(w.n, ctx, w.blocks[bid].depth)
    requires Shaped(w.n, w.blocks[bid]) && k + 1 < |w.blocks[bid].lvls|
    requires StateOk(w.mc, st) && st.stacks == At(w.n, ctx, w.blocks[bid], After(w.n, w.blocks[bid], k))
    requires Settled(w.mc, st, m)
    ensures Leads(w.mc, st,
        State(At(w.n, ctx, w.blocks[bid], w.blocks[bid].at[k + 1]), Nothing(w.n), m, Launched(st, st.pend)), 1)
  {
    var b := w.blocks[bid];
    BlockFacts(w, bid);
    hide WorldOk, BlockOk, SameTasks, Settled, Resolve, MoveLane, CanResolve, SomeEntry;
    var stacks := At(w.n, ctx, b, b.at[k + 1]);
    AtOk(w, ctx, b, b.at[k + 1], Nothing(w.n), m, Launched(st, st.pend));
    forall L | 0 <= L < |w.mc.streams|
      ensures LaneAtEvent(w.mc, st, Bar, L) && LaneResolvesTo(w.mc, st, Bar, m, stacks, L)
    {
      BarrierLane(w, ctx, bid, k, st, m, L);
    }
    EventStep(w.mc, st, Bar, m, stacks);
  }

  // ----- control entries ----------------------------------------------------------------------------

  /** The job behind level `k`, a control level, and the blocks of its ranges. */
  lemma CtrlFacts(w: World, bid: nat, k: nat)
    requires WorldOk(w) && bid < |w.blocks| && k < |w.blocks[bid].lvls| && w.blocks[bid].lvls[k].Ctrl?
    ensures |w.mc.streams| == w.n && Shaped(w.n, w.blocks[bid])
    ensures w.blocks[bid].lvls[k].idx < |w.p.instrs| && w.blocks[bid].lvls[k].job < |w.jobs|
    ensures var b, idx, j := w.blocks[bid], w.blocks[bid].lvls[k].idx, w.jobs[w.blocks[bid].lvls[k].job];
            && w.p.instrs[idx].IsRegion() && b.depth < MAX_DEPTH
            && j.first < |w.blocks| && j.second < |w.blocks|
            && w.blocks[j.first].range == FirstRange(w.p.instrs[idx]) && w.blocks[j.first].depth == b.depth + 1
            && w.blocks[j.second].range == SecondRange(w.p.instrs[idx]) && w.blocks[j.second].depth == b.depth + 1
            && Shaped(w.n, w.blocks[j.first]) && Shaped(w.n, w.blocks[j.second])
            && RangeSafe(w.p, w.blocks[j.first].range) && RangeSafe(w.p, w.blocks[j.second].range)
  {
    BlockFacts(w, bid);
    assert LvlAt(w.p, w.owner, w.jobs, w.blocks[bid], k);
    JobFacts(w, w.blocks[bid].lvls[k].job);
    var j := w.jobs[w.blocks[bid].lvls[k].job];
    BlockFacts(w, j.first);
    BlockFacts(w, j.second);
  }

  /** One lane of a control level. */
  lemma CtrlLane(w: World, bid: nat, k: nat, L: nat)
    requires WorldOk(w) && bid < |w.blocks| && k < |w.blocks[bid].lvls| && w.blocks[bid].lvls[k].Ctrl? && L < w.n
    ensures |w.mc.streams| == w.n && Shaped(w.n, w.blocks[bid])
    ensures w.blocks[bid].lvls[k].idx < |w.p.instrs| && w.blocks[bid].lvls[k].job < |w.jobs|
    ensures var b, idx, j, stream := w.blocks[bid], w.blocks[bid].lvls[k].idx, w.jobs[w.blocks[bid].lvls[k].job],
        w.mc.streams[L];
            && w.p.instrs[idx].IsRegion() && j.first < |w.blocks| && j.second < |w.blocks|
            && HasLane(w.blocks[j.first], L) && HasLane(w.blocks[j.second], L)
            && b.at[k][L] < b.at[|b.lvls|][L] <= |stream| && After(w.n, b, k)[L] == b.at[k][L] + 1
            && stream[b.at[k][L]] == PatchedControl(w.p.instrs[idx], w.blocks[j.first], w.blocks[j.second], L)
  {
    CtrlFacts(w, bid, k);
    BlockFacts(w, bid);
    var b, stream := w.blocks[bid], w.mc.streams[L];
    var j := w.jobs[b.lvls[k].job];
    JobFacts(w, b.lvls[k].job);
    assert LvlAt(w.p, w.owner, w.jobs, b, k);
    hide WorldOk, Nested, LevelsFrom, Packed, UnitsFor, RangeSafe;
    RowsAscend(w.p, w.n, w.mc.streams, w.owner, w.jobs, b, |b.lvls|, k + 1, L);
    assert RowAt(w.n, w.mc.streams, w.jobs, b, |b.lvls|, k, L);
    assert EntryAt(w.p, w.n, w.mc.streams, w.blocks, j, L);
    assert |stream[b.at[k][L] + 1..b.at[k + 1][L]]| == |Closing(k, |b.lvls|)|;
  }

  /** The surroundings of a block entered from level `k` of another. */
  function Inner(n: nat, ctx: Ctx, b: Block, k: nat, phase: int): (inner: Ctx)
    requires |ctx.base| == |ctx.widx| == n && Shaped(n, b) && k < |b.lvls|
    ensures |inner.base| == |inner.widx| == n && inner.phase == phase
    ensures forall L | 0 <= L < n :: inner.widx[L] == b.at[k][L]
    ensures inner.base == At(n, ctx, b, b.at[k])
  {
    Ctx(At(n, ctx, b, b.at[k]), seq(n, L requires 0 <= L < n => b.at[k][L]), phase)
  }

  lemma InnerOk(w: World, ctx: Ctx, bid: nat, k: nat, phase: int)
    requires WorldOk(w) && bid < |w.blocks| && k < |w.blocks[bid].lvls| && w.blocks[bid].lvls[k].Ctrl?
    requires CtxOk(w.n, ctx, w.blocks[bid].depth)
    ensures Shaped(w.n, w.blocks[bid]) && w.blocks[bid].depth < MAX_DEPTH
    ensures CtxOk(w.n, Inner(w.n, ctx, w.blocks[bid], k, phase), w.blocks[bid].depth + 1)
  {
    CtrlFacts(w, bid, k);
    hide WorldOk;
    var b := w.blocks[bid];
    var inner := Inner(w.n, ctx, b, k, phase);
    forall L | 0 <= L < w.n
      ensures LaneCtxOk(inner.base[L], b.depth + 1)
    {
      CtrlLane(w, bid, k, L);
      LaneStack(w.n, ctx, b, b.at[k], L);
    }
  }

  /** A move of every lane that collects nothing. */
  lemma MovesSlide(mc: Machine, a: State, b: State)
    requires StateOk(mc, a) && StateOk(mc, b) && a.mem == b.mem && a.pend == b.pend && a.launched == b.launched
    requires forall L {:trigger MoveLane(mc.kind, mc.streams[L], a.stacks[L], a.mem)} | 0 <= L < |mc.streams| ::
               MoveLane(mc.kind, mc.streams[L], a.stacks[L], a.mem) == Go(b.stacks[L], [])
    ensures Slides(mc, a, b)
  {
    hide MoveLane, WalkLane;
    forall L | 0 <= L < |mc.streams|
      ensures LaneSlides(mc, a, b, L)
    {
      assert MoveLane(mc.kind, mc.streams[L], a.stacks[L], a.mem) == Go(b.stacks[L], []);
      MoveWalks(mc.kind, mc.streams[L], a.stacks[L], a.mem);
      assert a.pend[L] + [] == a.pend[L];
      assert WalksVia(mc, a, b, L, []);
    }
  }

  /** Entering block `c` from a control level, in one lane. */
  lemma EnterLane(w: World, ctx: Ctx, bid: nat, k: nat, c: Block, phase: int, m: Mem, L: nat)
    requires WorldOk(w) && bid < |w.blocks| && k < |w.blocks[bid].lvls| && w.blocks[bid].lvls[k].Ctrl? && L < w.n
    requires CtxOk(w.n, ctx, w.blocks[bid].depth) && Shaped(w.n, c) && HasLane(c, L)
    requires |w.mc.streams| == w.n && Shaped(w.n, w.blocks[bid]) && w.blocks[bid].depth < MAX_DEPTH
    requires CanNest(w.mc.kind, w.blocks[bid].depth)
    requires var b := w.blocks[bid];
             && b.at[k][L] < |w.mc.streams[L]|
             && forall stack | stack != [] ::
                  Execute1(w.mc.kind, w.mc.streams[L][b.at[k][L]], stack, m) ==
                    Enter(w.mc.kind, stack, Start(c, L), Length(c, L), phase)
    ensures MoveLane(w.mc.kind, w.mc.streams[L], At(w.n, ctx, w.blocks[bid], w.blocks[bid].at[k])[L], m)
         == Go(At(w.n, Inner(w.n, ctx, w.blocks[bid], k, phase), c, c.at[0])[L], [])
  {
    var b := w.blocks[bid];
    CtrlLane(w, bid, k, L);
    hide WorldOk, Execute1;
    LaneStack(w.n, ctx, b, b.at[k], L);
    var stack := At(w.n, ctx, b, b.at[k])[L];
    assert Execute1(w.mc.kind, w.mc.streams[L][b.at[k][L]], stack, m)
        == Enter(w.mc.kind, stack, Start(c, L), Length(c, L), phase);
  }

  /** Leaving the control entry behind. */
  lemma PassLane(w: World, ctx: Ctx, bid: nat, k: nat, L: nat)
    requires WorldOk(w) && bid < |w.blocks| && k < |w.blocks[bid].lvls| && w.blocks[bid].lvls[k].Ctrl? && L < w.n
    requires CtxOk(w.n, ctx, w.blocks[bid].depth)
    ensures |w.mc.streams| == w.n && Shaped(w.n, w.blocks[bid])
    ensures At(w.n, ctx, w.blocks[bid], w.blocks[bid].at[k])[L] != []
    ensures var b := w.blocks[bid]; Bump(At(w.n, ctx, b, b.at[k])[L]) == At(w.n, ctx, b, After(w.n, b, k))[L]
  {
    var b := w.blocks[bid];
    CtrlLane(w, bid, k, L);
    hide WorldOk;
    TopOf(ctx.base[L], Frame(b.at[k][L], b.at[|b.lvls|][L], ctx.widx[L], ctx.phase));
  }

  // ----- the simulation -----------------------------------------------------------------------------

  /** What the machine does from `a` when the interpreter's outcome is `o`: after `k` rounds it comes
      to `b`, where the collected entries stand for the final memory, or halts or crashes; or it
      runs on for `bound` rounds. */
  ghost predicate Simulates(mc: Machine, a: State, o: Outcome, bound: nat, k: nat, b: State)
    requires PickOk(mc)
  {
    match o
    case Done(m) => Leads(mc, a, b, k) && Settled(mc, b, m)
    case Truncated(m) => HaltsAt(mc, a, k, m, b.launched)
    case OutOfFuel => RunsFor(mc, a, bound)
    case Failed => CrashesAt(mc, a, k)
  }

  /** Going on from where the first part ended. */
  lemma SimAfter(mc: Machine, a: State, b: State, c: State, o: Outcome, bound: nat, j: nat, k: nat)
    requires PickOk(mc) && Leads(mc, a, b, j) && Simulates(mc, b, o, bound, k, c)
    ensures Simulates(mc, a, o, j + bound, j + k, c)
  {
    hide Leads, RunsFor, Settled, HaltsAt, CrashesAt;
    match o {
      case Done(m) => LeadsTrans(mc, a, b, c, j, k);
      case Truncated(m) => HaltsVia(mc, a, b, j, k, m, c.launched);
      case OutOfFuel => LeadsRuns(mc, a, b, j, bound);
      case Failed => CrashesVia(mc, a, b, j, k);
    }
  }

  lemma SimLess(mc: Machine, a: State, b: State, o: Outcome, bound: nat, less: nat, k: nat)
    requires PickOk(mc) && Simulates(mc, a, o, bound, k, b) && less <= bound
    ensures Simulates(mc, a, o, less, k, b)
  {
    if o.OutOfFuel? {
      RunsLess(mc, a, less, bound);
    }
  }

  /** A range means what the levels of its block mean, and runs as many phases. */
  lemma RangeMeans(w: World, bid: nat, fuel: nat, m: Mem)
    requires WorldOk(w) && bid < |w.blocks|
    ensures w.blocks[bid].depth <= MAX_DEPTH
    ensures RangeRun(w.p, w.dev, w.blocks[bid].range, w.blocks[bid].depth, fuel, m)
         == LevelsRun(w.p, w.dev, LevelsOf(w.blocks[bid].lvls[0..]), w.blocks[bid].depth, fuel, m)
    ensures EvalRange(w.p, w.dev, w.blocks[bid].range, w.blocks[bid].depth, fuel, m)
         == EvalList(w.p, w.dev, LvlInstrs(w.blocks[bid].lvls[0..]), w.blocks[bid].depth, fuel, m)
  {
    BlockFacts(w, bid);
    var b := w.blocks[bid];
    hide WorldOk;
    assert b.lvls[0..] == b.lvls;
    EvalLive(w.p, w.dev, Range(b.range.0, b.range.1), b.depth, fuel, m);
  }

  function PartRun(p: Program, part: seq<nat>): nat {
    if HasTile(p, part) then 1 else 0
  }

  lemma WorkEntries(w: World, bid: nat, k: nat)
    requires WorldOk(w) && bid < |w.blocks| && k < |w.blocks[bid].lvls| && w.blocks[bid].lvls[k].Work?
    ensures Shaped(w.n, w.blocks[bid])
    ensures SomeEntry(LevelPend(w.n, w.blocks[bid], k)) <==> HasTile(w.p, w.blocks[bid].lvls[k].part)
  {
    BlockFacts(w, bid);
    hide WorldOk;
    var b := w.blocks[bid];
    assert LvlAt(w.p, w.owner, w.jobs, b, k);
    PackedHasEntries(w.p, w.owner, b.lvls[k].part, b.lvls[k].units, w.n);
    assert forall L | 0 <= L < w.n :: |LevelPend(w.n, b, k)[L]| == |Packed(b.lvls[k].units, w.n)[L]|;
  }

  /** A level of compute. */
  lemma SimWork(w: World, ctx: Ctx, bid: nat, k: nat, fuel: nat, m: Mem, d: nat) returns (end: State)
    requires WorldOk(w) && bid < |w.blocks| && CtxOk(w.n, ctx, w.blocks[bid].depth)
    requires RangeSafe(w.p, w.blocks[bid].range)
    requires Shaped(w.n, w.blocks[bid]) && k < |w.blocks[bid].lvls| && w.blocks[bid].lvls[k].Work?
    ensures Simulates(w.mc, State(At(w.n, ctx, w.blocks[bid], w.blocks[bid].at[k]), Nothing(w.n), m, d),
                      EvalList(w.p, w.dev, w.blocks[bid].lvls[k].part, w.blocks[bid].depth, fuel, m), fuel, 0, end)
    ensures EvalList(w.p, w.dev, w.blocks[bid].lvls[k].part, w.blocks[bid].depth, fuel, m).Done?
    ensures |end.pend| == w.n && end.stacks == At(w.n, ctx, w.blocks[bid], After(w.n, w.blocks[bid], k))
    ensures Launched(end, end.pend) == d + PartRun(w.p, w.blocks[bid].lvls[k].part)
  {
    var b := w.blocks[bid];
    WorkEntries(w, bid, k);
    var stacks := At(w.n, ctx, b, After(w.n, b, k));
    end := State(stacks, LevelPend(w.n, b, k), m, d);
    WorkSettles(w, bid, k, stacks, m, d);
    WorkSlides(w, ctx, bid, k, m, d);
    hide Slides, Settled, EvalList, RunWhole, SomeEntry, HasTile;
    EvalCompute(w.p, w.dev, b.lvls[k].part, b.depth, fuel, m);
    assert PickOk(w.mc);
    Slide(w.mc, State(At(w.n, ctx, b, b.at[k]), Nothing(w.n), m, d), end);
  }

  // ----- loop events ----------------------------------------------------------------------------------

  function JobOf(w: World, bid: nat, k: nat): Job
    requires bid < |w.blocks| && k < |w.blocks[bid].lvls| && w.blocks[bid].lvls[k].Ctrl?
    requires w.blocks[bid].lvls[k].job < |w.jobs|
  {
    w.jobs[w.blocks[bid].lvls[k].job]
  }

  predicate IsCtrl(w: World, bid: nat, k: nat) {
    bid < |w.blocks| && k < |w.blocks[bid].lvls| && w.blocks[bid].lvls[k].Ctrl? && w.blocks[bid].lvls[k].job < |w.jobs|
    && w.blocks[bid].lvls[k].idx < |w.p.instrs|
  }

  function InsOf(w: World, bid: nat, k: nat): Instr
    requires IsCtrl(w, bid, k)
  {
    w.p.instrs[w.blocks[bid].lvls[k].idx]
  }

  /** A frame of a region has reached the end of its range. */
  lemma EndOfRange(kind: Walker, stream: seq<Entry>, base: seq<Frame>, f: Frame, m: Mem)
    requires f.pc >= f.end && 0 <= f.widx < |stream|
    ensures stream[f.widx].task == TASK_FOR ==> MoveLane(kind, stream, base + [f], m) == Event(ForBody)
    ensures stream[f.widx].task == TASK_WHILE ==>
        MoveLane(kind, stream, base + [f], m) == Event(if f.phase == 0 then WhileCond else WhileBody)
    ensures stream[f.widx].task == TASK_IF && base != [] ==> MoveLane(kind, stream, base + [f], m) == Go(Bump(base), [])
  {
    TopOf(base, f);
  }

  lemma ForResolve(stream: seq<Entry>, base: seq<Frame>, f: Frame, m: Mem)
    requires StackOk(base + [f]) && base != [] && 0 <= f.widx < |stream|
    ensures CanResolve(stream, base + [f], ForBody, m)
    ensures var e := stream[f.widx];
            Resolve(stream, base + [f], ForBody, m)
              == if f.phase > 1 then base + [f.(pc := e.tileLo, end := e.tileLo + e.tileHi, phase := f.phase - 1)]
                else Bump(base)
  {
    TopOf(base, f);
    hide Top, Below, Bump;
  }

  lemma WhileResolve(stream: seq<Entry>, base: seq<Frame>, f: Frame, m: Mem)
    requires StackOk(base + [f]) && base != [] && 0 <= f.widx < |stream|
    ensures CanResolve(stream, base + [f], WhileCond, m) && CanResolve(stream, base + [f], WhileBody, m)
    ensures var e := stream[f.widx];
            Resolve(stream, base + [f], WhileCond, m)
              == if Get(m, Cell(e.signalFlag, 0)) != 0
                then base + [f.(pc := e.waitFlag, end := e.waitFlag + e.waitCount, phase := 1)]
                 else Bump(base)
    ensures var e := stream[f.widx];
            Resolve(stream, base + [f], WhileBody, m)
                == base + [f.(pc := e.tileLo, end := e.tileLo + e.tileHi, phase := 0)]
  {
    TopOf(base, f);
    hide Top, Below, Bump;
  }

  /** The lane's stack when it stands in block `c`, entered from level `k`. */
  lemma InnerStack(w: World, ctx: Ctx, bid: nat, k: nat, c: Block, phase: int, row: seq<nat>, L: nat)
    requires WorldOk(w) && IsCtrl(w, bid, k) && CtxOk(w.n, ctx, w.blocks[bid].depth) && L < w.n
    requires Shaped(w.n, c) && c.depth == w.blocks[bid].depth + 1 && |row| == w.n
    ensures Shaped(w.n, w.blocks[bid])
    ensures var b := w.blocks[bid];
            var base, f := At(w.n, ctx, b, b.at[k])[L], Frame(row[L], c.at[|c.lvls|][L], b.at[k][L], phase);
            && base != [] && StackOk(base + [f])
            && At(w.n, Inner(w.n, ctx, b, k, phase), c, row)[L] == base + [f]
  {
    InnerOk(w, ctx, bid, k, phase);
    hide WorldOk;
    var b := w.blocks[bid];
    LaneStack(w.n, Inner(w.n, ctx, b, k, phase), c, row, L);
  }

  lemma ForLane(w: World, ctx: Ctx, bid: nat, k: nat, phase: int, st: State, m: Mem, L: nat)
    requires WorldOk(w) && IsCtrl(w, bid, k) && CtxOk(w.n, ctx, w.blocks[bid].depth) && L < w.n == |w.mc.streams|
    requires InsOf(w, bid, k).op == For && StateOk(w.mc, st) && Shaped(w.n, w.blocks[bid])
    requires JobOf(w, bid, k).second < |w.blocks| && Shaped(w.n, w.blocks[JobOf(w, bid, k).second])
    requires var b, c := w.blocks[bid], w.blocks[JobOf(w, bid, k).second];
             st.stacks == At(w.n, Inner(w.n, ctx, b, k, phase), c, c.at[|c.lvls|])
    ensures LaneAtEvent(w.mc, st, ForBody, L)
    ensures LaneResolvesTo(w.mc, st, ForBody, m, ForStacks(w, ctx, bid, k, phase), L)
  {
    hide WorldOk, RangeSafe, MoveLane, Resolve, CanResolve, Bump, StackOk;
    var b, c := w.blocks[bid], w.blocks[JobOf(w, bid, k).second];
    CtrlFacts(w, bid, k);
    CtrlLane(w, bid, k, L);
    PassLane(w, ctx, bid, k, L);
    InnerStack(w, ctx, bid, k, c, phase, c.at[|c.lvls|], L);
    if phase > 1 {
      InnerStack(w, ctx, bid, k, c, phase - 1, c.at[0], L);
    }
    var stream, base := w.mc.streams[L], At(w.n, ctx, b, b.at[k])[L];
    var f := Frame(c.at[|c.lvls|][L], c.at[|c.lvls|][L], b.at[k][L], phase);
    EndOfRange(w.mc.kind, stream, base, f, st.mem);
    ForResolve(stream, base, f, m);
    ForResolve(stream, base, f, st.mem);
  }

  /** Where the lanes stand after a trip with this counter. */
  function ForStacks(w: World, ctx: Ctx, bid: nat, k: nat, phase: int): (stacks: seq<seq<Frame>>)
    requires IsCtrl(w, bid, k) && Shaped(w.n, w.blocks[bid]) && |ctx.base| == |ctx.widx| == w.n
    requires JobOf(w, bid, k).second < |w.blocks| && Shaped(w.n, w.blocks[JobOf(w, bid, k).second])
    ensures |stacks| == w.n
  {
    var b, c := w.blocks[bid], w.blocks[JobOf(w, bid, k).second];
    if phase > 1 then At(w.n, Inner(w.n, ctx, b, k, phase - 1), c, c.at[0]) else At(w.n, ctx, b, After(w.n, b, k))
  }

  /** Where the lanes stand after the loop condition has been read in memory `m`. */
  function TestStacks(w: World, ctx: Ctx, bid: nat, k: nat, m: Mem): (stacks: seq<seq<Frame>>)
    requires IsCtrl(w, bid, k) && Shaped(w.n, w.blocks[bid]) && |ctx.base| == |ctx.widx| == w.n
    requires JobOf(w, bid, k).second < |w.blocks| && Shaped(w.n, w.blocks[JobOf(w, bid, k).second])
    ensures |stacks| == w.n
  {
    var b, c := w.blocks[bid], w.blocks[JobOf(w, bid, k).second];
    if Get(m, Cell(InsOf(w, bid, k).dst, 0)) != 0 then At(w.n, Inner(w.n, ctx, b, k, 1), c, c.at[0])
    else At(w.n, ctx, b, After(w.n, b, k))
  }

  lemma TestLane(w: World, ctx: Ctx, bid: nat, k: nat, st: State, m: Mem, L: nat)
    requires WorldOk(w) && IsCtrl(w, bid, k) && CtxOk(w.n, ctx, w.blocks[bid].depth) && L < w.n == |w.mc.streams|
    requires InsOf(w, bid, k).op == While && StateOk(w.mc, st) && Shaped(w.n, w.blocks[bid])
    requires JobOf(w, bid, k).first < |w.blocks| && Shaped(w.n, w.blocks[JobOf(w, bid, k).first])
    requires JobOf(w, bid, k).second < |w.blocks| && Shaped(w.n, w.blocks[JobOf(w, bid, k).second])
    requires var b, c := w.blocks[bid], w.blocks[JobOf(w, bid, k).first];
             st.stacks == At(w.n, Inner(w.n, ctx, b, k, 0), c, c.at[|c.lvls|])
    ensures LaneAtEvent(w.mc, st, WhileCond, L)
    ensures LaneResolvesTo(w.mc, st, WhileCond, m, TestStacks(w, ctx, bid, k, m), L)
  {
    hide WorldOk, RangeSafe, MoveLane, Resolve, CanResolve, Bump, StackOk;
    var b, c, d := w.blocks[bid], w.blocks[JobOf(w, bid, k).first], w.blocks[JobOf(w, bid, k).second];
    CtrlFacts(w, bid, k);
    CtrlLane(w, bid, k, L);
    PassLane(w, ctx, bid, k, L);
    InnerStack(w, ctx, bid, k, c, 0, c.at[|c.lvls|], L);
    InnerStack(w, ctx, bid, k, d, 1, d.at[0], L);
    var stream, base := w.mc.streams[L], At(w.n, ctx, b, b.at[k])[L];
    var f := Frame(c.at[|c.lvls|][L], c.at[|c.lvls|][L], b.at[k][L], 0);
    EndOfRange(w.mc.kind, stream, base, f, st.mem);
    WhileResolve(stream, base, f, m);
  }

  lemma AgainLane(w: World, ctx: Ctx, bid: nat, k: nat, st: State, m: Mem, L: nat)
    requires WorldOk(w) && IsCtrl(w, bid, k) && CtxOk(w.n, ctx, w.blocks[bid].depth) && L < w.n == |w.mc.streams|
    requires InsOf(w, bid, k).op == While && StateOk(w.mc, st) && Shaped(w.n, w.blocks[bid])
    requires JobOf(w, bid, k).first < |w.blocks| && Shaped(w.n, w.blocks[JobOf(w, bid, k).first])
    requires JobOf(w, bid, k).second < |w.blocks| && Shaped(w.n, w.blocks[JobOf(w, bid, k).second])
    requires var b, d := w.blocks[bid], w.blocks[JobOf(w, bid, k).second];
             st.stacks == At(w.n, Inner(w.n, ctx, b, k, 1), d, d.at[|d.lvls|])
    ensures LaneAtEvent(w.mc, st, WhileBody, L)
    ensures var b, c := w.blocks[bid], w.blocks[JobOf(w, bid, k).first];
            LaneResolvesTo(w.mc, st, WhileBody, m, At(w.n, Inner(w.n, ctx, b, k, 0), c, c.at[0]), L)
  {
    hide WorldOk, RangeSafe, MoveLane, Resolve, CanResolve, Bump, StackOk;
    var b, c, d := w.blocks[bid], w.blocks[JobOf(w, bid, k).first], w.blocks[JobOf(w, bid, k).second];
    CtrlFacts(w, bid, k);
    CtrlLane(w, bid, k, L);
    InnerStack(w, ctx, bid, k, d, 1, d.at[|d.lvls|], L);
    InnerStack(w, ctx, bid, k, c, 0, c.at[0], L);
    var stream, base := w.mc.streams[L], At(w.n, ctx, b, b.at[k])[L];
    var f := Frame(d.at[|d.lvls|][L], d.at[|d.lvls|][L], b.at[k][L], 1);
    EndOfRange(w.mc.kind, stream, base, f, st.mem);
    WhileResolve(stream, base, f, m);
  }

  /** What every region case needs to know, once. */
  lemma RegionSetting(w: World, ctx: Ctx, bid: nat, k: nat)
    requires WorldOk(w) && bid < |w.blocks| && k < |w.blocks[bid].lvls| && w.blocks[bid].lvls[k].Ctrl?
    requires CtxOk(w.n, ctx, w.blocks[bid].depth)
    ensures IsCtrl(w, bid, k) && Shaped(w.n, w.blocks[bid]) && |w.mc.streams| == w.n && PickOk(w.mc)
    ensures w.blocks[bid].depth < MAX_DEPTH && InsOf(w, bid, k).IsRegion()
    ensures var j := JobOf(w, bid, k);
            && IsChild(w, bid, FirstRange(InsOf(w, bid, k)), j.first)
            && IsChild(w, bid, SecondRange(InsOf(w, bid, k)), j.second)
    ensures forall phase :: CtxOk(w.n, Inner(w.n, ctx, w.blocks[bid], k, phase), w.blocks[bid].depth + 1)
  {
    CtrlFacts(w, bid, k);
    forall phase
      ensures CtxOk(w.n, Inner(w.n, ctx, w.blocks[bid], k, phase), w.blocks[bid].depth + 1)
    {
      InnerOk(w, ctx, bid, k, phase);
    }
  }

  ghost predicate IsChild(w: World, bid: nat, range: (nat, nat), cid: nat)
    requires bid < |w.blocks|
  {
    && cid < |w.blocks| && w.blocks[cid].range == range && w.blocks[cid].depth == w.blocks[bid].depth + 1
    && Shaped(w.n, w.blocks[cid]) && RangeSafe(w.p, range)
  }
}
