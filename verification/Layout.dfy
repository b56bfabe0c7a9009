/** How instruction ranges are laid out in the lane streams: a table of blocks, one for each
    scheduled range, and of jobs, one for each control entry. The table is what the scheduler
    knows and the streams do not say. */
module Layout {
  import opened Arith
  import opened Isa
  import opened Interleave
  import opened Streams
  import opened PhaseCut
  import opened Packing
  import opened OnePhase
  import opened PhaseUnits
  import opened Reference
  import opened Levels

  /** A level with what was emitted for it: the units of a phase, or a control entry. */
  datatype Lvl = Work(part: seq<nat>, units: seq<Unit>) | Ctrl(idx: nat, job: nat)

  /** A scheduled range. Level `k` starts at index `at[k][L]` of lane `L`; the last row of `at`
      is where the block ends. */
  datatype Block = Block(range: (nat, nat), depth: nat, lvls: seq<Lvl>, at: seq<seq<nat>>)

  /** A control entry: the region instruction, the nesting depth it occurs at, its position in
      every lane, and once scheduled the blocks of its two ranges. */
  datatype Job = Job(idx: nat, depth: nat, pos: seq<nat>, done: bool, first: nat, second: nat)

  function FirstInstrs(lvl: Lvl): seq<nat> {
    match lvl case Work(part, _) => part case Ctrl(i, _) => [i]
  }

  function LvlInstrs(lvls: seq<Lvl>): seq<nat> {
    if lvls == [] then [] else FirstInstrs(lvls[0]) + LvlInstrs(lvls[1..])
  }

  /** The levels that these were made from; one without instructions only fills up a root. */
  function LevelsOf(lvls: seq<Lvl>): seq<Level> {
    if lvls == [] then [] else MadeFrom(lvls[0]) + LevelsOf(lvls[1..])
  }

  function MadeFrom(lvl: Lvl): seq<Level> {
    match lvl
    case Work(part, _) => if part == [] then [] else [Compute(part)]
    case Ctrl(i, _) => [Region(i)]
  }

  /** The jobs of the control levels. */
  function LvlJobs(lvls: seq<Lvl>): seq<nat> {
    if lvls == [] then [] else JobsAt(lvls[0]) + LvlJobs(lvls[1..])
  }

  function JobsAt(lvl: Lvl): seq<nat> {
    match lvl case Work(_, _) => [] case Ctrl(_, j) => [j]
  }

  lemma {:induction false} LvlsConcat(a: seq<Lvl>, b: seq<Lvl>)
    ensures LvlInstrs(a + b) == LvlInstrs(a) + LvlInstrs(b)
    ensures LevelsOf(a + b) == LevelsOf(a) + LevelsOf(b)
    ensures LvlJobs(a + b) == LvlJobs(a) + LvlJobs(b)
  {
    hide FirstInstrs, MadeFrom, JobsAt;
    if a == [] {
      assert a + b == b;
    } else {
      assert (a + b)[1..] == a[1..] + b;
      LvlsConcat(a[1..], b);
    }
  }

  lemma {:induction false} LvlMember(lvls: seq<Lvl>, k: nat)
    requires k < |lvls| && lvls[k].Ctrl?
    ensures lvls[k].idx in LvlInstrs(lvls)
  {
    if k == 0 {
    } else {
      LvlMember(lvls[1..], k - 1);
    }
  }

  lemma {:induction false} LvlFinds(lvls: seq<Lvl>, i: nat) returns (x: nat)
    requires i in LvlInstrs(lvls)
    ensures x < |lvls| && i in FirstInstrs(lvls[x])
  {
    if i in FirstInstrs(lvls[0]) {
      x := 0;
    } else {
      x := LvlFinds(lvls[1..], i);
      x := x + 1;
    }
  }

  /** The control entry as first emitted, with its ranges still to be filled in. */
  function FreshControl(ins: Instr): Entry
    requires ins.IsRegion()
  {
    match ins.op
    case For => Entry(TASK_FOR, 0, 0, ins.b, 0, FLAG_NONE, 0, 0)
    case If => Entry(TASK_IF, 0, 0, 0, 0, ins.dst, 0, 0)
    case _ => Entry(TASK_WHILE, 0, 0, 0, 0, ins.dst, 0, 0)
  }

  /** The control entry of one lane once both ranges are laid out there. */
  function PatchedControl(ins: Instr, first: Block, second: Block, L: nat): Entry
    requires ins.IsRegion() && HasLane(first, L) && HasLane(second, L)
  {
    var e := FreshControl(ins);
    if ins.op == For then e.(tileLo := Start(second, L), tileHi := Length(second, L))
    else e.(tileLo := Start(first, L), tileHi := Length(first, L),
            waitFlag := Start(second, L), waitCount := Length(second, L))
  }

  predicate HasLane(b: Block, L: nat) {
    && |b.at| == |b.lvls| + 1
    && (forall k | 0 <= k < |b.at| :: L < |b.at[k]|)
    && b.at[0][L] <= b.at[|b.lvls|][L]
  }

  function Start(b: Block, L: nat): nat requires HasLane(b, L) { b.at[0][L] }
  function Stop(b: Block, L: nat): nat requires HasLane(b, L) { b.at[|b.lvls|][L] }
  function Length(b: Block, L: nat): nat requires HasLane(b, L) { Stop(b, L) - Start(b, L) }

  /** What closes level `k` of `total`: a barrier, except after the last. */
  function Closing(k: nat, total: nat): seq<Entry> {
    if k + 1 < total then [BARRIER_ENTRY] else []
  }

  /** Level `k` of `total` of one block as it stands in one lane. */
  predicate LevelAt(stream: seq<Entry>, n: pos, jobs: seq<Job>, lvl: Lvl, lo: nat, hi: nat, k: nat, total: nat, L: nat)
    requires L < n
  {
    && lo <= hi <= |stream|
    && match lvl
       case Work(_, units) => stream[lo..hi] == Packed(units, n)[L] + Closing(k, total)
       case Ctrl(_, j) =>
         && j < |jobs| && L < |jobs[j].pos| && jobs[j].pos[L] == lo
         && lo < hi && stream[lo].IsControl() && stream[lo + 1..hi] == Closing(k, total)
  }

  ghost predicate LvlOk(p: Program, owner: seq<nat>, jobs: seq<Job>, range: (nat, nat), depth: nat, lvl: Lvl) {
    match lvl
    case Work(part, units) => CleanPhase(p, part) && UnitsFor(p, owner, part, units) && FromRange(p, range, part)
    case Ctrl(i, j) =>
      && i < |p.instrs| && p.instrs[i].IsRegion()
      && j < |jobs| && jobs[j].idx == i && jobs[j].depth == depth
  }

  /** The phase is one of the phases that the range is cut into (or empty). */
  predicate FromRange(p: Program, range: (nat, nat), part: seq<nat>) {
    part == [] || (InRange(p, Range(range.0, range.1)) && Compute(part) in LevelsFrom(p, [], Range(range.0, range.1)))
  }

  /** The first rows of a block of `total` levels are laid out. */
  ghost predicate RowsOk(p: Program, n: pos, lanes: seq<seq<Entry>>, owner: seq<nat>, jobs: seq<Job>, b: Block,
                         total: nat) {
    && |lanes| == n
    && Shaped(n, b)
    && (forall k {:trigger LvlAt(p, owner, jobs, b, k)} | 0 <= k < |b.lvls| :: LvlAt(p, owner, jobs, b, k))
    && (forall k, L: nat {:trigger RowAt(n, lanes, jobs, b, total, k, L)} | 0 <= k < |b.lvls| && L < n ::
      RowAt(n, lanes, jobs, b, total, k, L))
    && forall L | 0 <= L < n :: b.at[|b.lvls|][L] <= |lanes[L]|
  }

  /** One row of `n` lane positions before each level and one after the last. */
  predicate Shaped(n: nat, b: Block) {
    |b.at| == |b.lvls| + 1 && forall k | 0 <= k < |b.at| :: |b.at[k]| == n
  }

  ghost predicate LvlAt(p: Program, owner: seq<nat>, jobs: seq<Job>, b: Block, k: nat)
    requires k < |b.lvls|
  {
    LvlOk(p, owner, jobs, b.range, b.depth, b.lvls[k])
  }

  predicate RowAt(n: pos, lanes: seq<seq<Entry>>, jobs: seq<Job>, b: Block, total: nat, k: nat, L: nat)
    requires |lanes| == n && Shaped(n, b) && k < |b.lvls| && L < n
  {
    LevelAt(lanes[L], n, jobs, b.lvls[k], b.at[k][L], b.at[k + 1][L], k, total, L)
  }

  /** The block holds the levels of its range, row by row; only a root may hold empty ones. */
  ghost predicate BlockOk(p: Program, n: pos, lanes: seq<seq<Entry>>, owner: seq<nat>, jobs: seq<Job>, b: Block) {
    && b.depth <= MAX_DEPTH && Nested(p, b.range, b.depth)
    && RowsOk(p, n, lanes, owner, jobs, b, |b.lvls|)
    && LvlInstrs(b.lvls) == Live(p, Range(b.range.0, b.range.1))
    && LevelsOf(b.lvls) == LevelsFrom(p, [], Range(b.range.0, b.range.1))
    && (b.depth > 0 ==> |b.lvls| == |LevelsOf(b.lvls)|)
  }

  lemma {:induction false} RowsAscend(p: Program, n: pos, lanes: seq<seq<Entry>>, owner: seq<nat>, jobs: seq<Job>,
                                      b: Block, total: nat, k: nat, L: nat)
    requires RowsOk(p, n, lanes, owner, jobs, b, total) && k <= |b.lvls| && L < n
    ensures b.at[0][L] <= b.at[k][L] <= b.at[|b.lvls|][L]
    decreases |b.lvls| - k, k
  {
    RowsUp(p, n, lanes, owner, jobs, b, total, k, L);
    RowsDown(p, n, lanes, owner, jobs, b, total, k, L);
  }

  lemma {:induction false} RowsUp(p: Program, n: pos, lanes: seq<seq<Entry>>, owner: seq<nat>, jobs: seq<Job>, b: Block,
                                  total: nat, k: nat, L: nat)
    requires RowsOk(p, n, lanes, owner, jobs, b, total) && k <= |b.lvls| && L < n
    ensures b.at[k][L] <= b.at[|b.lvls|][L]
    decreases |b.lvls| - k
  {
    hide LvlOk, Closing;
    if k >= |b.lvls| {
    } else {
      RowsUp(p, n, lanes, owner, jobs, b, total, k + 1, L);
      assert RowAt(n, lanes, jobs, b, total, k, L);
    }
  }

  lemma {:induction false} RowsDown(p: Program, n: pos, lanes: seq<seq<Entry>>, owner: seq<nat>, jobs: seq<Job>,
                                    b: Block, total: nat, k: nat, L: nat)
    requires RowsOk(p, n, lanes, owner, jobs, b, total) && k <= |b.lvls| && L < n
    ensures b.at[0][L] <= b.at[k][L]
  {
    if k == 0 {
    } else {
      RowsDown(p, n, lanes, owner, jobs, b, total, k - 1, L);
      assert RowAt(n, lanes, jobs, b, total, k - 1, L);
    }
  }

  lemma BlockHasLane(p: Program, n: pos, lanes: seq<seq<Entry>>, owner: seq<nat>, jobs: seq<Job>, b: Block, L: nat)
    requires BlockOk(p, n, lanes, owner, jobs, b) && L < n
    ensures HasLane(b, L) && Stop(b, L) <= |lanes[L]|
  {
    RowsAscend(p, n, lanes, owner, jobs, b, |b.lvls|, 0, L);
  }

  ghost predicate JobOk(p: Program, n: pos, lanes: seq<seq<Entry>>, blocks: seq<Block>, j: Job) {
    && |lanes| == n == |j.pos|
    && j.idx < |p.instrs| && p.instrs[j.idx].IsRegion()
    && j.depth < MAX_DEPTH
    && Nested(p, FirstRange(p.instrs[j.idx]), j.depth + 1) && Nested(p, SecondRange(p.instrs[j.idx]), j.depth + 1)
    && (j.done ==> j.first < |blocks| && j.second < |blocks| && RangesOk(p, blocks, j))
    && (forall L: nat {:trigger EntryAt(p, n, lanes, blocks, j, L)} | L < n :: EntryAt(p, n, lanes, blocks, j, L))
  }

  predicate EntryAt(p: Program, n: nat, lanes: seq<seq<Entry>>, blocks: seq<Block>, j: Job, L: nat)
    requires |lanes| == n == |j.pos| && L < n
    requires j.idx < |p.instrs| && p.instrs[j.idx].IsRegion()
    requires j.done ==> j.first < |blocks| && j.second < |blocks|
  {
    j.pos[L] < |lanes[L]| && EntryOk(p, lanes[L][j.pos[L]], blocks, j, L)
  }

  predicate RangesOk(p: Program, blocks: seq<Block>, j: Job)
    requires j.idx < |p.instrs| && j.first < |blocks| && j.second < |blocks|
  {
    && blocks[j.first].range == FirstRange(p.instrs[j.idx]) && blocks[j.first].depth == j.depth + 1
    && blocks[j.second].range == SecondRange(p.instrs[j.idx]) && blocks[j.second].depth == j.depth + 1
  }

  predicate EntryOk(p: Program, e: Entry, blocks: seq<Block>, j: Job, L: nat)
    requires j.idx < |p.instrs| && p.instrs[j.idx].IsRegion()
    requires j.done ==> j.first < |blocks| && j.second < |blocks|
  {
    if j.done then
      && HasLane(blocks[j.first], L) && HasLane(blocks[j.second], L)
      && e == PatchedControl(p.instrs[j.idx], blocks[j.first], blocks[j.second], L)
    else e == FreshControl(p.instrs[j.idx])
  }

  /** Jobs were emitted left to right in every lane. */
  predicate PosAscending(n: nat, jobs: seq<Job>) {
    && (forall j | 0 <= j < |jobs| :: |jobs[j].pos| == n)
    && forall i, j, L | 0 <= i < j < |jobs| && 0 <= L < n :: jobs[i].pos[L] < jobs[j].pos[L]
  }

  /** The whole table: blocks laid out, jobs emitted in order, the first `head` of them done. */
  ghost predicate TableOk(p: Program, n: pos, lanes: seq<seq<Entry>>, owner: seq<nat>, jobs: seq<Job>,
                          blocks: seq<Block>, head: nat) {
    && |lanes| == n && |owner| < TASK_FOR
    && (forall b {:trigger BlockOk(p, n, lanes, owner, jobs, blocks[b])} | 0 <= b < |blocks| ::
      BlockOk(p, n, lanes, owner, jobs, blocks[b]))
    && (forall j {:trigger JobOk(p, n, lanes, blocks, jobs[j])} | 0 <= j < |jobs| ::
      JobOk(p, n, lanes, blocks, jobs[j]))
    && PosAscending(n, jobs)
    && head <= |jobs| && forall j | 0 <= j < |jobs| :: jobs[j].done <==> j < head
  }

  // ----- the table survives growth and patching ------------------------------------------------

  /** The later jobs agree with the earlier ones on everything but their completion. */
  predicate JobsExtend(jobs: seq<Job>, jobs': seq<Job>) {
    && |jobs| <= |jobs'|
    && forall j | 0 <= j < |jobs| ::
      jobs'[j].idx == jobs[j].idx && jobs'[j].depth == jobs[j].depth && jobs'[j].pos == jobs[j].pos
  }

  /** A stream only grows, and only its control entries change (into control entries). */
  predicate StreamExtends(s: seq<Entry>, s': seq<Entry>) {
    && |s| <= |s'|
    && forall x | 0 <= x < |s| :: s'[x] == s[x] || (s[x].IsControl() && s'[x].IsControl())
  }

  predicate LanesExtend(lanes: seq<seq<Entry>>, lanes': seq<seq<Entry>>) {
    |lanes'| == |lanes| && forall L | 0 <= L < |lanes| :: StreamExtends(lanes[L], lanes'[L])
  }

  predicate NoControl(s: seq<Entry>) {
    forall x | 0 <= x < |s| :: !s[x].IsControl()
  }

  lemma PackedNoControl(p: Program, owner: seq<nat>, part: seq<nat>, units: seq<Unit>, n: pos, L: nat)
    requires CleanPhase(p, part) && UnitsFor(p, owner, part, units) && L < n && |owner| < TASK_FOR
    ensures NoControl(Packed(units, n)[L])
  {
    UnitsForTids(p, owner, part, units);
    PackedIsOk(owner, units, n);
    assert EntriesOk(owner, Packed(units, n)[L]);
  }

  lemma UnitsForTids(p: Program, owner: seq<nat>, part: seq<nat>, units: seq<Unit>)
    requires CleanPhase(p, part) && UnitsFor(p, owner, part, units)
    ensures UnitsOk(owner, units)
  {
    var comps :| Chains.AreChains(p, Pick(p, part, true), comps)
      && UnitsForChains(p, owner, Singles(Pick(p, part, false)) + comps, units);
    UnitsTidsOk(p, owner, Singles(Pick(p, part, false)) + comps, units);
  }

  lemma UnitsForStable(p: Program, owner: seq<nat>, owner': seq<nat>, part: seq<nat>, units: seq<Unit>)
    requires CleanPhase(p, part) && UnitsFor(p, owner, part, units) && owner <= owner'
    ensures UnitsFor(p, owner', part, units)
  {
    hide Tiles, TaskOf, Flatten;
    var comps :| Chains.AreChains(p, Pick(p, part, true), comps)
      && UnitsForChains(p, owner, Singles(Pick(p, part, false)) + comps, units);
    var chains := Singles(Pick(p, part, false)) + comps;
    assert UnitsForChains(p, owner', chains, units) by {
      forall c | 0 <= c < |chains|
        ensures GoodChain(p, chains[c]) && UnitFor(p, owner', chains[c], units[c])
      {
        assert UnitFor(p, owner, chains[c], units[c]);
      }
    }
  }

  lemma SliceStable(s: seq<Entry>, s': seq<Entry>, lo: nat, hi: nat)
    requires StreamExtends(s, s') && lo <= hi <= |s| && NoControl(s[lo..hi])
    ensures s'[lo..hi] == s[lo..hi]
  {
    forall x | lo <= x < hi
      ensures s'[x] == s[x]
    {
      assert s[x] == s[lo..hi][x - lo];
    }
  }

  lemma LevelAtStable(p: Program, n: pos, s: seq<Entry>, s': seq<Entry>, owner: seq<nat>, jobs: seq<Job>,
                      jobs': seq<Job>, range: (nat, nat), depth: nat, lvl: Lvl, lo: nat, hi: nat, k: nat, total: nat,
                      L: nat)
    requires L < n && LevelAt(s, n, jobs, lvl, lo, hi, k, total, L) && LvlOk(p, owner, jobs, range, depth, lvl)
    requires StreamExtends(s, s') && JobsExtend(jobs, jobs') && |owner| < TASK_FOR
    ensures LevelAt(s', n, jobs', lvl, lo, hi, k, total, L)
  {
    hide Packed, CleanPhase, UnitsFor, FromRange, JobsExtend;
    match lvl {
      case Work(part, units) => WorkAtStable(p, n, s, s', owner, part, units, lo, hi, k, total, L);
      case Ctrl(i, j) => CtrlAtStable(n, s, s', jobs, jobs', i, j, lo, hi, k, total, L);
    }
  }

  lemma WorkAtStable(p: Program, n: pos, s: seq<Entry>, s': seq<Entry>, owner: seq<nat>, part: seq<nat>,
                     units: seq<Unit>, lo: nat, hi: nat, k: nat, total: nat, L: nat)
    requires L < n && lo <= hi <= |s| && s[lo..hi] == Packed(units, n)[L] + Closing(k, total)
    requires CleanPhase(p, part) && UnitsFor(p, owner, part, units) && |owner| < TASK_FOR && StreamExtends(s, s')
    ensures hi <= |s'| && s'[lo..hi] == s[lo..hi]
  {
    hide Packed, CleanPhase, UnitsFor;
    PackedNoControl(p, owner, part, units, n, L);
    assert NoControl(s[lo..hi]);
    SliceStable(s, s', lo, hi);
  }

  lemma CtrlAtStable(n: pos, s: seq<Entry>, s': seq<Entry>, jobs: seq<Job>, jobs': seq<Job>, i: nat, j: nat,
                     lo: nat, hi: nat, k: nat, total: nat, L: nat)
    requires L < n && LevelAt(s, n, jobs, Ctrl(i, j), lo, hi, k, total, L)
    requires StreamExtends(s, s') && JobsExtend(jobs, jobs')
    ensures LevelAt(s', n, jobs', Ctrl(i, j), lo, hi, k, total, L)
  {
    assert s'[lo].IsControl();
    SliceStable(s, s', lo + 1, hi);
  }

  lemma RowsStable(p: Program, n: pos, lanes: seq<seq<Entry>>, lanes': seq<seq<Entry>>, owner: seq<nat>,
                   owner': seq<nat>, jobs: seq<Job>, jobs': seq<Job>, b: Block, total: nat)
    requires RowsOk(p, n, lanes, owner, jobs, b, total)
    requires LanesExtend(lanes, lanes') && owner <= owner' && JobsExtend(jobs, jobs') && |owner| < TASK_FOR
    ensures RowsOk(p, n, lanes', owner', jobs', b, total)
  {
    forall k | 0 <= k < |b.lvls|
      ensures LvlAt(p, owner', jobs', b, k)
    {
      assert LvlAt(p, owner, jobs, b, k);
      if b.lvls[k].Work? {
        UnitsForStable(p, owner, owner', b.lvls[k].part, b.lvls[k].units);
      }
    }
    forall k, L: nat | 0 <= k < |b.lvls| && L < n
      ensures RowAt(n, lanes', jobs', b, total, k, L)
    {
      assert RowAt(n, lanes, jobs, b, total, k, L) && LvlAt(p, owner, jobs, b, k);
      LevelAtStable(p, n, lanes[L], lanes'[L], owner, jobs, jobs', b.range, b.depth, b.lvls[k], b.at[k][L],
          b.at[k + 1][L], k, total, L);
    }
    forall L | 0 <= L < n
      ensures b.at[|b.lvls|][L] <= |lanes'[L]|
    {
      assert b.at[|b.lvls|][L] <= |lanes[L]|;
      assert StreamExtends(lanes[L], lanes'[L]);
    }
  }

  predicate LanesGrow(lanes: seq<seq<Entry>>, lanes': seq<seq<Entry>>) {
    |lanes'| == |lanes| && forall L | 0 <= L < |lanes| :: lanes[L] <= lanes'[L]
  }

  /** Appending entries, tasks and pending jobs keeps the table. */
  lemma TableGrows(p: Program, n: pos, lanes: seq<seq<Entry>>, lanes': seq<seq<Entry>>, owner: seq<nat>,
                   owner': seq<nat>, jobs: seq<Job>, blocks: seq<Block>, head: nat)
    requires TableOk(p, n, lanes, owner, jobs, blocks, head)
    requires LanesGrow(lanes, lanes') && owner <= owner' && |owner'| < TASK_FOR
    ensures TableOk(p, n, lanes', owner', jobs, blocks, head)
  {
    forall b | 0 <= b < |blocks|
      ensures BlockOk(p, n, lanes', owner', jobs, blocks[b])
    {
      assert BlockOk(p, n, lanes, owner, jobs, blocks[b]);
      RowsStable(p, n, lanes, lanes', owner, owner', jobs, jobs, blocks[b], |blocks[b].lvls|);
    }
    forall j | 0 <= j < |jobs|
      ensures JobOk(p, n, lanes', blocks, jobs[j])
    {
      assert JobOk(p, n, lanes, blocks, jobs[j]);
      JobStable(p, n, lanes, lanes', blocks, jobs[j]);
    }
  }

  lemma JobStable(p: Program, n: pos, lanes: seq<seq<Entry>>, lanes': seq<seq<Entry>>, blocks: seq<Block>, j: Job)
    requires JobOk(p, n, lanes, blocks, j) && |lanes'| == n
    requires forall L: nat | L < n :: EntryAt(p, n, lanes, blocks, j, L) ==>
        |lanes[L]| <= |lanes'[L]| && lanes'[L][j.pos[L]] == lanes[L][j.pos[L]]
    ensures JobOk(p, n, lanes', blocks, j)
  {
    forall L: nat | L < n
      ensures EntryAt(p, n, lanes', blocks, j, L)
    {
      assert EntryAt(p, n, lanes, blocks, j, L);
    }
  }

  /** Emitting a fresh control entry in every lane adds a pending job. */
  lemma TableAddsJob(p: Program, n: pos, lanes: seq<seq<Entry>>, owner: seq<nat>, jobs: seq<Job>, blocks: seq<Block>,
                     head: nat, j: Job)
    requires TableOk(p, n, lanes, owner, jobs, blocks, head)
    requires !j.done && JobOk(p, n, lanes, blocks, j)
    requires forall i, L | 0 <= i < |jobs| && 0 <= L < n :: jobs[i].pos[L] < j.pos[L]
    ensures TableOk(p, n, lanes, owner, jobs + [j], blocks, head)
  {
    hide BlockOk, JobOk;
    JobHasPlace(p, n, lanes, blocks, j);
    forall b | 0 <= b < |blocks|
      ensures BlockOk(p, n, lanes, owner, jobs + [j], blocks[b])
    {
      BlockMoreJobs(p, n, lanes, owner, jobs, j, blocks[b]);
    }
  }

  lemma BlockMoreJobs(p: Program, n: pos, lanes: seq<seq<Entry>>, owner: seq<nat>, jobs: seq<Job>, j: Job, b: Block)
    requires BlockOk(p, n, lanes, owner, jobs, b) && |owner| < TASK_FOR
    ensures BlockOk(p, n, lanes, owner, jobs + [j], b)
  {
    hide RowsOk, Nested, LevelsFrom, Live, LvlInstrs, LevelsOf;
    RowsStable(p, n, lanes, lanes, owner, owner, jobs, jobs + [j], b, |b.lvls|);
  }

  lemma TableAddsBlock(p: Program, n: pos, lanes: seq<seq<Entry>>, owner: seq<nat>, jobs: seq<Job>, blocks: seq<Block>,
                       head: nat, b: Block)
    requires TableOk(p, n, lanes, owner, jobs, blocks, head) && BlockOk(p, n, lanes, owner, jobs, b)
    ensures TableOk(p, n, lanes, owner, jobs, blocks + [b], head)
  {
    hide BlockOk, JobOk;
    forall j | 0 <= j < |jobs|
      ensures JobOk(p, n, lanes, blocks + [b], jobs[j])
    {
      JobMoreBlocks(p, n, lanes, blocks, b, jobs[j]);
    }
  }

  lemma JobMoreBlocks(p: Program, n: pos, lanes: seq<seq<Entry>>, blocks: seq<Block>, b: Block, j: Job)
    requires JobOk(p, n, lanes, blocks, j)
    ensures JobOk(p, n, lanes, blocks + [b], j)
  {
    hide Nested, PatchedControl;
    forall L: nat | L < n
      ensures EntryAt(p, n, lanes, blocks + [b], j, L)
    {
      assert EntryAt(p, n, lanes, blocks, j, L);
    }
  }

  /** The lanes with one control entry filled in. */
  predicate PatchedAt(p: Program, lanes: seq<seq<Entry>>, lanes': seq<seq<Entry>>, blocks: seq<Block>, j: Job)
    requires j.idx < |p.instrs| && p.instrs[j.idx].IsRegion() && j.first < |blocks| && j.second < |blocks|
  {
    && |lanes'| == |lanes| == |j.pos|
    && forall L | 0 <= L < |lanes| ::
         && HasLane(blocks[j.first], L) && HasLane(blocks[j.second], L)
         && j.pos[L] < |lanes[L]|
         && lanes'[L] == lanes[L][j.pos[L] := PatchedControl(p.instrs[j.idx], blocks[j.first], blocks[j.second], L)]
  }

  lemma PatchExtends(p: Program, n: pos, lanes: seq<seq<Entry>>, lanes': seq<seq<Entry>>, blocks: seq<Block>, was: Job,
                     j: Job)
    requires JobOk(p, n, lanes, blocks, was) && !was.done
    requires j == was.(done := true, first := j.first, second := j.second)
    requires j.first < |blocks| && j.second < |blocks| && PatchedAt(p, lanes, lanes', blocks, j)
    ensures LanesExtend(lanes, lanes')
  {
    forall L | 0 <= L < n
      ensures StreamExtends(lanes[L], lanes'[L])
    {
      assert EntryAt(p, n, lanes, blocks, was, L);
    }
  }

  lemma BlocksPatched(p: Program, n: pos, lanes: seq<seq<Entry>>, lanes': seq<seq<Entry>>, owner: seq<nat>,
                      jobs: seq<Job>, jobs': seq<Job>, blocks: seq<Block>)
    requires |owner| < TASK_FOR && LanesExtend(lanes, lanes') && JobsExtend(jobs, jobs')
    requires forall b | 0 <= b < |blocks| :: BlockOk(p, n, lanes, owner, jobs, blocks[b])
    ensures forall b | 0 <= b < |blocks| :: BlockOk(p, n, lanes', owner, jobs', blocks[b])
  {
    forall b | 0 <= b < |blocks|
      ensures BlockOk(p, n, lanes', owner, jobs', blocks[b])
    {
      RowsStable(p, n, lanes, lanes', owner, owner, jobs, jobs', blocks[b], |blocks[b].lvls|);
    }
  }

  lemma OtherJobPatched(p: Program, n: pos, lanes: seq<seq<Entry>>, lanes': seq<seq<Entry>>, blocks: seq<Block>, i: Job,
                        j: Job)
    requires JobOk(p, n, lanes, blocks, i)
    requires j.idx < |p.instrs| && p.instrs[j.idx].IsRegion() && j.first < |blocks| && j.second < |blocks|
    requires PatchedAt(p, lanes, lanes', blocks, j)
    requires forall L | 0 <= L < n :: i.pos[L] != j.pos[L]
    ensures JobOk(p, n, lanes', blocks, i)
  {
    JobStable(p, n, lanes, lanes', blocks, i);
  }

  lemma DifferentPlaces(n: nat, jobs: seq<Job>, i: nat, j: nat)
    requires PosAscending(n, jobs) && i < |jobs| && j < |jobs| && i != j
    ensures |jobs[i].pos| == |jobs[j].pos| == n
    ensures forall L | 0 <= L < n :: jobs[i].pos[L] != jobs[j].pos[L]
  {
    assert forall L | 0 <= L < n :: if i < j then jobs[i].pos[L] < jobs[j].pos[L] else jobs[j].pos[L] < jobs[i].pos[L];
  }

  lemma JobHasPlace(p: Program, n: pos, lanes: seq<seq<Entry>>, blocks: seq<Block>, j: Job)
    requires JobOk(p, n, lanes, blocks, j)
    ensures |lanes| == n == |j.pos| && j.idx < |p.instrs| && p.instrs[j.idx].IsRegion()
  {
  }

  /** Filling in the ranges of the first pending job completes it. */
  lemma TablePatches(p: Program, n: pos, lanes: seq<seq<Entry>>, lanes': seq<seq<Entry>>, owner: seq<nat>,
                     jobs: seq<Job>, blocks: seq<Block>, head: nat, j: Job)
    requires TableOk(p, n, lanes, owner, jobs, blocks, head) && head < |jobs|
    requires j.done && j == jobs[head].(done := true, first := j.first, second := j.second)
    requires j.idx < |p.instrs| && j.first < |blocks| && j.second < |blocks| && RangesOk(p, blocks, j)
    requires p.instrs[j.idx].IsRegion() && PatchedAt(p, lanes, lanes', blocks, j)
    ensures TableOk(p, n, lanes', owner, jobs[head := j], blocks, head + 1)
  {
    hide JobOk, BlockOk, LanesExtend, RangesOk;
    var jobs' := jobs[head := j];
    assert JobOk(p, n, lanes, blocks, jobs[head]);
    JobHasPlace(p, n, lanes, blocks, jobs[head]);
    PatchExtends(p, n, lanes, lanes', blocks, jobs[head], j);
    BlocksPatched(p, n, lanes, lanes', owner, jobs, jobs', blocks);
    forall i | 0 <= i < |jobs'|
      ensures JobOk(p, n, lanes', blocks, jobs'[i])
    {
      if i == head {
        PatchedJobOk(p, n, lanes, lanes', blocks, jobs[head], j);
      } else {
        DifferentPlaces(n, jobs, i, head);
        OtherJobPatched(p, n, lanes, lanes', blocks, jobs[i], j);
      }
    }
  }

  lemma PatchedJobOk(p: Program, n: pos, lanes: seq<seq<Entry>>, lanes': seq<seq<Entry>>, blocks: seq<Block>, was: Job,
                     j: Job)
    requires JobOk(p, n, lanes, blocks, was)
    requires j.done && j == was.(done := true, first := j.first, second := j.second)
    requires j.first < |blocks| && j.second < |blocks| && RangesOk(p, blocks, j)
    requires PatchedAt(p, lanes, lanes', blocks, j)
    ensures JobOk(p, n, lanes', blocks, j)
  {
    forall L: nat | L < n
      ensures EntryAt(p, n, lanes', blocks, j, L)
    {
    }
  }
}
