/** The scheduler: turns a tensor program into per-lane streams, region by region. */
module Scheduler {
  import opened Arith
  import opened Isa
  import opened Interleave
  import opened Streams
  import opened PhaseCut
  import opened Chains
  import opened Packing
  import opened OnePhase
  import opened PhaseUnits
  import opened Reference
  import opened Levels
  import opened Layout

  /** A region waiting to be scheduled: where its control entries are, lane by lane, and its
      two instruction lists. */
  datatype WhileJob = WhileJob(pos: seq<nat>, condIndices: seq<nat>, bodyIndices: seq<nat>, op: Op)

  datatype Schedule = Schedule(nFlags: nat, nLanes: nat, tasks: seq<Task>, laneStreams: seq<seq<Entry>>,
      rootLens: seq<nat>)

  // ----- the task table --------------------------------------------------------------------

  predicate TasksOk(p: Program, tasks: seq<Task>, owner: seq<nat>, instrTask: map<nat, nat>) {
    && |owner| == |tasks|
    && (forall t {:trigger OwnerOk(p, tasks, owner, instrTask, t)} | 0 <= t < |tasks| ::
      OwnerOk(p, tasks, owner, instrTask, t))
    && (forall i {:trigger TaskIdOk(owner, instrTask, i)} | i in instrTask :: TaskIdOk(owner, instrTask, i))
  }

  predicate OwnerOk(p: Program, tasks: seq<Task>, owner: seq<nat>, instrTask: map<nat, nat>, t: nat)
    requires |owner| == |tasks| && t < |tasks|
  {
    && owner[t] < |p.instrs| && Schedulable(p.tg, p.instrs[owner[t]]) && tasks[t] == TaskOf(p.tg, p.instrs[owner[t]])
    && owner[t] in instrTask && instrTask[owner[t]] == t
  }

  predicate TaskIdOk(owner: seq<nat>, instrTask: map<nat, nat>, i: nat)
    requires i in instrTask
  {
    instrTask[i] < |owner| && owner[instrTask[i]] == i
  }

  lemma {:induction false} DistinctBelow(s: seq<nat>, n: nat)
    requires forall x | 0 <= x < |s| :: s[x] < n
    requires forall x, y | 0 <= x < y < |s| :: s[x] != s[y]
    ensures |s| <= n
    decreases n
  {
    if s == [] {
    } else {
      var k := |s| - 1;
      assert 0 <= s[k] < n;
      if x :| 0 <= x < k && s[x] == n - 1 {
        var r := s[..k][x := s[k]];
        DistinctBelow(r, n - 1);
      } else {
        DistinctBelow(s[..k], n - 1);
      }
    }
  }

  /** There are no more tasks than instructions. */
  lemma OwnerBound(p: Program, tasks: seq<Task>, owner: seq<nat>, instrTask: map<nat, nat>)
    requires TasksOk(p, tasks, owner, instrTask)
    ensures |owner| <= |p.instrs|
  {
    forall x, y | 0 <= x < y < |owner|
      ensures owner[x] != owner[y]
    {
      assert OwnerOk(p, tasks, owner, instrTask, x) && OwnerOk(p, tasks, owner, instrTask, y);
    }
    forall x | 0 <= x < |owner|
      ensures owner[x] < |p.instrs|
    {
      assert OwnerOk(p, tasks, owner, instrTask, x);
    }
    DistinctBelow(owner, |p.instrs|);
  }

  // ----- how much work is queued --------------------------------------------------------------

  /** The number of regions inside an instruction, counting nested ones once per use. */
  function InstrWeight(p: Program, i: nat, depth: nat): nat
    decreases MAX_DEPTH - depth, 0, 0
  {
    if i < |p.instrs| && p.instrs[i].IsRegion() && depth < MAX_DEPTH then
      1 + RangeWeight(p, FirstRange(p.instrs[i]), depth + 1) + RangeWeight(p, SecondRange(p.instrs[i]), depth + 1)
    else 0
  }

  function RangeWeight(p: Program, r: (nat, nat), depth: nat): nat
    decreases MAX_DEPTH - depth, 2, 0
  {
    ListWeight(p, Range(r.0, r.1), depth)
  }

  function ListWeight(p: Program, indices: seq<nat>, depth: nat): nat
    decreases MAX_DEPTH - depth, 1, |indices|
  {
    if indices == [] then 0 else InstrWeight(p, indices[0], depth) + ListWeight(p, indices[1..], depth)
  }

  lemma {:induction false} ListWeightConcat(p: Program, a: seq<nat>, b: seq<nat>, depth: nat)
    ensures ListWeight(p, a + b, depth) == ListWeight(p, a, depth) + ListWeight(p, b, depth)
    decreases |a|
  {
    if a == [] {
      assert a + b == b;
    } else {
      assert (a + b)[1..] == a[1..] + b;
      ListWeightConcat(p, a[1..], b, depth);
    }
  }

  lemma {:induction false} LiveWeight(p: Program, indices: seq<nat>, depth: nat)
    requires InRange(p, indices)
    ensures ListWeight(p, Live(p, indices), depth) == ListWeight(p, indices, depth)
    decreases |indices|
  {
    if indices == [] {
    } else {
      LiveWeight(p, indices[1..], depth);
      var rest := Live(p, indices[1..]);
      assert ([indices[0]] + rest)[1..] == rest;
    }
  }

  lemma {:induction false} ComputeWeight(p: Program, part: seq<nat>, depth: nat)
    requires AllSchedulable(p, part)
    ensures ListWeight(p, part, depth) == 0
    decreases |part|
  {
    if part == [] {
    } else {
      ComputeWeight(p, part[1..], depth);
    }
  }

  function Pending(p: Program, jobs: seq<Job>): nat {
    if jobs == [] then 0 else InstrWeight(p, jobs[0].idx, jobs[0].depth) + Pending(p, jobs[1..])
  }

  lemma {:induction false} PendingConcat(p: Program, a: seq<Job>, b: seq<Job>)
    ensures Pending(p, a + b) == Pending(p, a) + Pending(p, b)
    decreases |a|
  {
    if a == [] {
      assert a + b == b;
    } else {
      assert (a + b)[1..] == a[1..] + b;
      PendingConcat(p, a[1..], b);
    }
  }

  // ----- blocks under construction ------------------------------------------------------------

  function Ends(lanes: seq<seq<Entry>>): (row: seq<nat>)
    ensures |row| == |lanes| && forall L | 0 <= L < |lanes| :: row[L] == |lanes[L]|
  {
    seq(|lanes|, L requires 0 <= L < |lanes| => |lanes[L]|)
  }

  /** The rows laid out so far end where the lanes end. */
  ghost predicate Growing(p: Program, n: pos, lanes: seq<seq<Entry>>, owner: seq<nat>, jobs: seq<Job>, b: Block,
                          total: nat) {
    RowsOk(p, n, lanes, owner, jobs, b, total) && b.at[|b.lvls|] == Ends(lanes)
  }

  lemma LanesGrowOn(lanes: seq<seq<Entry>>, more: seq<seq<Entry>>, most: seq<seq<Entry>>)
    requires LanesGrow(lanes, more) && LanesGrow(more, most)
    ensures LanesGrow(lanes, most)
  {
  }

  lemma LanesGrowNot(lanes: seq<seq<Entry>>)
    ensures LanesGrow(lanes, lanes)
  {
  }

  /** A block whose levels are all laid out. */
  lemma GrownIsOk(p: Program, n: pos, lanes: seq<seq<Entry>>, owner: seq<nat>, jobs: seq<Job>, b: Block,
                  levels: seq<Level>)
    requires b.depth <= MAX_DEPTH && Nested(p, b.range, b.depth) && Growing(p, n, lanes, owner, jobs, b, |b.lvls|)
    requires InRange(p, Range(b.range.0, b.range.1)) && levels == LevelsFrom(p, [], Range(b.range.0, b.range.1))
    requires LvlInstrs(b.lvls) == LevelInstrs(levels) == Live(p, Range(b.range.0, b.range.1))
    requires LevelsOf(b.lvls) == levels && |b.lvls| == |levels|
    ensures BlockOk(p, n, lanes, owner, jobs, b) && |b.at| == |b.lvls| + 1 && b.at[|b.lvls|] == Ends(lanes)
  {
  }

  lemma LevelRowsAppended(p: Program, n: pos, lanes: seq<seq<Entry>>, owner: seq<nat>, jobs: seq<Job>, b: Block,
                          lvl: Lvl, row: seq<nat>, total: nat, k: nat, L: nat)
    requires RowsOk(p, n, lanes, owner, jobs, b, total) && L < n && |row| == n
    requires LevelAt(lanes[L], n, jobs, lvl, b.at[|b.lvls|][L], row[L], |b.lvls|, total, L)
    requires k < |b.lvls| + 1
    ensures LevelAt(lanes[L], n, jobs, (b.lvls + [lvl])[k], (b.at + [row])[k][L], (b.at + [row])[k + 1][L], k, total, L)
  {
    if k < |b.lvls| {
      assert RowAt(n, lanes, jobs, b, total, k, L);
    }
  }

  lemma GrowExtends(lanes: seq<seq<Entry>>, lanes': seq<seq<Entry>>)
    requires LanesGrow(lanes, lanes')
    ensures LanesExtend(lanes, lanes')
  {
  }

  /** One more level, appended to every lane, extends a growing block. */
  lemma RowAppended(p: Program, n: pos, lanes: seq<seq<Entry>>, lanes': seq<seq<Entry>>, owner: seq<nat>,
                    owner': seq<nat>, jobs: seq<Job>, jobs': seq<Job>, b: Block, lvl: Lvl, total: nat)
    requires Growing(p, n, lanes, owner, jobs, b, total)
    requires LanesGrow(lanes, lanes') && owner <= owner' && jobs <= jobs' && |owner| < TASK_FOR
    requires LvlOk(p, owner', jobs', b.range, b.depth, lvl)
    requires forall L: nat | L < n :: LevelAt(lanes'[L], n, jobs', lvl, |lanes[L]|, |lanes'[L]|, |b.lvls|, total, L)
    ensures Growing(p, n, lanes', owner', jobs', b.(lvls := b.lvls + [lvl], at := b.at + [Ends(lanes')]), total)
  {
    GrowExtends(lanes, lanes');
    RowsStable(p, n, lanes, lanes', owner, owner', jobs, jobs', b, total);
    forall L: nat | L < n
      ensures LevelAt(lanes'[L], n, jobs', lvl, b.at[|b.lvls|][L], Ends(lanes')[L], |b.lvls|, total, L)
    {
      assert b.at[|b.lvls|][L] == |lanes[L]|;
    }
    LvlAppended(p, n, lanes', owner', jobs', b, lvl, Ends(lanes'), total);
  }

  lemma LvlAppended(p: Program, n: pos, lanes: seq<seq<Entry>>, owner: seq<nat>, jobs: seq<Job>, b: Block, lvl: Lvl,
                    row: seq<nat>, total: nat)
    requires RowsOk(p, n, lanes, owner, jobs, b, total) && |row| == n && LvlOk(p, owner, jobs, b.range, b.depth, lvl)
    requires forall L: nat | L < n :: LevelAt(lanes[L], n, jobs, lvl, b.at[|b.lvls|][L], row[L], |b.lvls|, total, L)
    ensures RowsOk(p, n, lanes, owner, jobs, b.(lvls := b.lvls + [lvl], at := b.at + [row]), total)
  {
    hide CleanPhase, FromRange, Packed, AreChains;
    var b' := b.(lvls := b.lvls + [lvl], at := b.at + [row]);
    forall k | 0 <= k < |b'.lvls|
      ensures LvlAt(p, owner, jobs, b', k)
    {
      assert k < |b.lvls| ==> LvlAt(p, owner, jobs, b, k);
    }
    forall k, L: nat | 0 <= k < |b'.lvls| && L < n
      ensures RowAt(n, lanes, jobs, b', total, k, L)
    {
      LevelRowsAppended(p, n, lanes, owner, jobs, b, lvl, row, total, k, L);
    }
    forall L | 0 <= L < n
      ensures b'.at[|b'.lvls|][L] <= |lanes[L]|
    {
      assert LevelAt(lanes[L], n, jobs, lvl, b.at[|b.lvls|][L], row[L], |b.lvls|, total, L);
    }
  }

  lemma WorkLevelAt(stream: seq<Entry>, body: seq<Entry>, n: pos, jobs: seq<Job>, part: seq<nat>, units: seq<Unit>,
                    k: nat, total: nat, L: nat)
    requires L < n && body == Packed(units, n)[L] + Closing(k, total)
    ensures LevelAt(stream + body, n, jobs, Work(part, units), |stream|, |stream + body|, k, total, L)
  {
    assert (stream + body)[|stream|..|stream + body|] == body;
  }

  lemma CtrlLevelAt(stream: seq<Entry>, e: Entry, n: pos, jobs: seq<Job>, idx: nat, j: nat, k: nat, total: nat, L: nat)
    requires L < n && e.IsControl() && j < |jobs| && L < |jobs[j].pos| && jobs[j].pos[L] == |stream|
    ensures var s := stream + ([e] + Closing(k, total));
            LevelAt(s, n, jobs, Ctrl(idx, j), |stream|, |s|, k, total, L)
  {
    var s := stream + ([e] + Closing(k, total));
    assert s[|stream| + 1..|s|] == Closing(k, total);
  }

  lemma JobsBefore(p: Program, n: pos, lanes: seq<seq<Entry>>, owner: seq<nat>, jobs: seq<Job>, blocks: seq<Block>,
                   head: nat)
    requires TableOk(p, n, lanes, owner, jobs, blocks, head)
    ensures forall i, L | 0 <= i < |jobs| && 0 <= L < n :: jobs[i].pos[L] < Ends(lanes)[L]
  {
    forall i, L | 0 <= i < |jobs| && 0 <= L < n
      ensures jobs[i].pos[L] < Ends(lanes)[L]
    {
      assert JobOk(p, n, lanes, blocks, jobs[i]);
      assert EntryAt(p, n, lanes, blocks, jobs[i], L);
    }
  }

  lemma NewJobOk(p: Program, n: pos, lanes: seq<seq<Entry>>, lanes': seq<seq<Entry>>, blocks: seq<Block>, j: Job)
    requires |lanes| == |lanes'| == n && j.idx < |p.instrs| && p.instrs[j.idx].IsRegion()
    requires j.depth < MAX_DEPTH && InstrNested(p, j.idx, j.depth) && !j.done && j.pos == Ends(lanes)
    requires forall L | 0 <= L < n :: lanes'[L] == lanes[L] + [FreshControl(p.instrs[j.idx])]
    ensures JobOk(p, n, lanes', blocks, j)
  {
    forall L: nat | L < n
      ensures EntryAt(p, n, lanes', blocks, j, L)
    {
      assert j.pos[L] == |lanes[L]|;
    }
  }

  /** The levels of a nested range carry its live instructions and can all be emitted. */
  lemma RangeLevels(p: Program, range: (nat, nat), depth: nat, levels: seq<Level>)
    requires depth <= MAX_DEPTH && Nested(p, range, depth)
    requires InRange(p, Range(range.0, range.1)) && levels == LevelsFrom(p, [], Range(range.0, range.1))
    ensures LevelInstrs(levels) == Live(p, Range(range.0, range.1)) && LevelsOk(p, levels)
    ensures forall x | 0 <= x < |levels| :: LevelFits(p, range, depth, levels[x])
  {
    var indices := Range(range.0, range.1);
    EmptyPrefix(indices);
    EmptyPrefix(Live(p, indices));
    assert Known(p, indices) by {
      forall x | 0 <= x < |indices| && p.instrs[indices[x]].IsCompute()
        ensures Schedulable(p.tg, p.instrs[indices[x]])
      {
        assert InstrNested(p, indices[x], depth);
      }
    }
    LevelsCarry(p, [], indices);
    forall x | 0 <= x < |levels|
      ensures LevelFits(p, range, depth, levels[x])
    {
      if levels[x].Region? {
        RegionMember(levels, x);
        LiveMember(p, indices, levels[x].idx);
        assert InstrNested(p, levels[x].idx, depth);
      }
    }
  }

  ghost predicate LevelFits(p: Program, range: (nat, nat), depth: nat, level: Level)
    requires depth <= MAX_DEPTH
  {
    match level
    case Compute(part) => FromRange(p, range, part)
    case Region(i) => i < |p.instrs| && InstrNested(p, i, depth)
  }

  lemma {:induction false} RegionMember(levels: seq<Level>, x: nat)
    requires x < |levels| && levels[x].Region?
    ensures levels[x].idx in LevelInstrs(levels)
  {
    if x == 0 {
    } else {
      RegionMember(levels[1..], x - 1);
    }
  }

  lemma {:induction false} LiveMember(p: Program, indices: seq<nat>, i: nat)
    requires InRange(p, indices) && i in Live(p, indices)
    ensures i in indices
  {
    if i == indices[0] {
    } else {
      LiveMember(p, indices[1..], i);
    }
  }

  lemma {:induction false} LiveKeeps(p: Program, indices: seq<nat>, i: nat)
    requires InRange(p, indices) && i in indices && p.instrs[i].op != Nop
    ensures i in Live(p, indices)
  {
    if i == indices[0] {
    } else {
      LiveKeeps(p, indices[1..], i);
    }
  }

  lemma {:induction false} PickAppend(p: Program, part: seq<nat>, i: nat, maps: bool)
    requires InRange(p, part) && i < |p.instrs|
    ensures Pick(p, part + [i], maps) == Pick(p, part, maps) + if IsMap(p.tg, p.instrs[i]) == maps then [i] else []
  {
    if part == [] {
      assert part + [i] == [i];
    } else {
      assert (part + [i])[1..] == part[1..] + [i];
      PickAppend(p, part[1..], i, maps);
    }
  }

  lemma PickStep(p: Program, part: seq<nat>, k: nat)
    requires InRange(p, part) && k < |part|
    ensures var mapped := IsMap(p.tg, p.instrs[part[k]]);
            && Pick(p, part[..k + 1], mapped) == Pick(p, part[..k], mapped) + [part[k]]
            && Pick(p, part[..k + 1], !mapped) == Pick(p, part[..k], !mapped)
  {
    assert part[..k + 1] == part[..k] + [part[k]];
    PickAppend(p, part[..k], part[k], true);
    PickAppend(p, part[..k], part[k], false);
  }

  /** Appends each placed entry to its lane. */
  method AppendPlaced(lanes: seq<seq<Entry>>, placed: seq<(nat, Entry)>) returns (grown: seq<seq<Entry>>)
    requires forall x | 0 <= x < |placed| :: placed[x].0 < |lanes|
    ensures |grown| == |lanes| && forall L | 0 <= L < |lanes| :: grown[L] == lanes[L] + Select(placed, L)
  {
    grown := lanes;
    var x := 0;
    while x < |placed|
      invariant 0 <= x <= |placed| && |grown| == |lanes|
      invariant forall L | 0 <= L < |lanes| :: grown[L] == lanes[L] + Select(placed[..x], L)
    {
      assert placed[..x + 1][..x] == placed[..x];
      var lane, entry := placed[x].0, placed[x].1;
      grown := grown[lane := grown[lane] + [entry]];
      x := x + 1;
    }
    assert placed[..x] == placed;
  }

  /** Appends to every lane. */
  method AppendEach(lanes: seq<seq<Entry>>, more: seq<seq<Entry>>) returns (grown: seq<seq<Entry>>)
    requires |more| == |lanes|
    ensures |grown| == |lanes| && forall L | 0 <= L < |lanes| :: grown[L] == lanes[L] + more[L]
  {
    grown := lanes;
    var lane := 0;
    while lane < |lanes|
      invariant 0 <= lane <= |lanes| == |grown|
      invariant forall L | 0 <= L < |lanes| :: grown[L] == if L < lane then lanes[L] + more[L] else lanes[L]
    {
      grown := grown[lane := grown[lane] + more[lane]];
      lane := lane + 1;
    }
  }

  /** What a level puts into the lanes before its closing barrier, given where they ended. */
  ghost predicate IsBody(p: Program, n: pos, jobs: seq<Job>, lvl: Lvl, body: seq<seq<Entry>>, ends: seq<nat>) {
    match lvl
    case Work(_, units) => body == Packed(units, n)
    case Ctrl(i, j) =>
      && i < |p.instrs| && p.instrs[i].IsRegion() && j < |jobs| && jobs[j].pos == ends
      && |body| == |ends| == n && forall L | 0 <= L < n :: body[L] == [FreshControl(p.instrs[i])]
  }

  lemma GrowingEnds(p: Program, n: pos, lanes: seq<seq<Entry>>, owner: seq<nat>, jobs: seq<Job>, b: Block, total: nat)
    requires Growing(p, n, lanes, owner, jobs, b, total)
    ensures |lanes| == n && |b.at| == |b.lvls| + 1 && b.at[|b.lvls|] == Ends(lanes)
  {
  }

  lemma BodyAppended(p: Program, n: pos, lanes: seq<seq<Entry>>, lanes': seq<seq<Entry>>, owner: seq<nat>,
                     owner': seq<nat>, jobs: seq<Job>, jobs': seq<Job>, b: Block, lvl: Lvl, body: seq<seq<Entry>>,
                     total: nat)
    requires Growing(p, n, lanes, owner, jobs, b, total) && |owner| < TASK_FOR
    requires owner <= owner' && jobs <= jobs' && LvlOk(p, owner', jobs', b.range, b.depth, lvl)
    requires IsBody(p, n, jobs', lvl, body, Ends(lanes)) && |lanes'| == n
    requires forall L: nat | L < n :: lanes'[L] == lanes[L] + body[L] + Closing(|b.lvls|, total)
    ensures LanesGrow(lanes, lanes')
    ensures Growing(p, n, lanes', owner', jobs', b.(lvls := b.lvls + [lvl], at := b.at + [Ends(lanes')]), total)
  {
    hide Growing, RowsOk, LvlAt, RowAt, Packed, UnitsFor, Shaped, LevelsFrom;
    GrowingEnds(p, n, lanes, owner, jobs, b, total);
    var li := |b.lvls|;
    forall L: nat | L < n
      ensures LevelAt(lanes'[L], n, jobs', lvl, |lanes[L]|, |lanes'[L]|, li, total, L)
    {
      assert lanes'[L] == lanes[L] + (body[L] + Closing(li, total));
      match lvl {
        case Work(part, units) => WorkLevelAt(lanes[L], body[L] + Closing(li, total), n, jobs', part, units, li, total,
          L);
        case Ctrl(idx, j) => CtrlLevelAt(lanes[L], FreshControl(p.instrs[idx]), n, jobs', idx, j, li, total, L);
      }
    }
    RowAppended(p, n, lanes, lanes', owner, owner', jobs, jobs', b, lvl, total);
  }

  lemma WeightStep(p: Program, levels: seq<Level>, li: nat, depth: nat, start: nat, before: seq<Job>, after: seq<Job>)
    requires li < |levels| && start <= |before| && before <= after
    requires Pending(p, before[start..]) == ListWeight(p, LevelInstrs(levels[..li]), depth)
    requires Pending(p, after[|before|..]) == ListWeight(p, LevelInstrs([levels[li]]), depth)
    ensures levels[..li + 1] == levels[..li] + [levels[li]]
    ensures LevelInstrs(levels[..li + 1]) == LevelInstrs(levels[..li]) + LevelInstrs([levels[li]])
    ensures Pending(p, after[start..]) == ListWeight(p, LevelInstrs(levels[..li + 1]), depth)
  {
    hide LevelInstrs, ListWeight, Pending;
    assert levels[..li + 1] == levels[..li] + [levels[li]];
    LevelInstrsConcat(levels[..li], [levels[li]]);
    ListWeightConcat(p, LevelInstrs(levels[..li]), LevelInstrs([levels[li]]), depth);
    assert after[start..] == before[start..] + after[|before|..];
    PendingConcat(p, before[start..], after[|before|..]);
  }

  /** Each block starts, in every lane, where the one before it ends; the first starts the
      lane and the last ends it. */
  predicate Tiled(n: nat, blocks: seq<Block>, ends: seq<nat>) {
    && (forall b | 0 <= b < |blocks| :: |blocks[b].at| == |blocks[b].lvls| + 1)
    && (blocks != [] ==> blocks[0].at[0] == seq(n, L => 0))
    && forall b {:trigger EndsAtNext(blocks, ends, b)} | 0 <= b < |blocks| :: EndsAtNext(blocks, ends, b)
  }

  predicate EndsAtNext(blocks: seq<Block>, ends: seq<nat>, b: nat)
    requires forall c | 0 <= c < |blocks| :: |blocks[c].at| == |blocks[c].lvls| + 1
    requires b < |blocks|
  {
    blocks[b].at[|blocks[b].lvls|] == if b + 1 < |blocks| then blocks[b + 1].at[0] else ends
  }

  function JobRecord(p: Program, j: Job): WhileJob
    requires j.idx < |p.instrs|
  {
    var ins := p.instrs[j.idx];
    WhileJob(j.pos, Range(FirstRange(ins).0, FirstRange(ins).1), Range(SecondRange(ins).0, SecondRange(ins).1), ins.op)
  }

  predicate QueueOk(p: Program, regionQueue: seq<WhileJob>, jobs: seq<Job>, head: nat) {
    && head + |regionQueue| == |jobs|
    && forall q | 0 <= q < |regionQueue| :: IsRecord(p, regionQueue[q], jobs[head + q])
  }

  predicate IsRecord(p: Program, record: WhileJob, j: Job) {
    j.idx < |p.instrs| && record == JobRecord(p, j)
  }

  lemma QueuePops(p: Program, regionQueue: seq<WhileJob>, jobs: seq<Job>, head: nat, j: Job)
    requires QueueOk(p, regionQueue, jobs, head) && regionQueue != []
    ensures QueueOk(p, regionQueue[1..], jobs[head := j], head + 1)
    ensures jobs[head := j][head + 1..] == jobs[head + 1..]
  {
    forall q | 0 <= q < |regionQueue[1..]|
      ensures IsRecord(p, regionQueue[1..][q], jobs[head := j][head + 1 + q])
    {
      assert IsRecord(p, regionQueue[q + 1], jobs[head + (q + 1)]);
    }
  }

  /** Every chain can become a unit: it is good, and its operations have tasks. */
  predicate Ready(p: Program, chains: seq<seq<nat>>, instrTask: map<nat, nat>) {
    forall c | 0 <= c < |chains| :: GoodChain(p, chains[c]) && forall i | i in chains[c] :: i in instrTask
  }

  lemma PhaseReady(p: Program, part: seq<nat>, comps: seq<seq<nat>>, instrTask: map<nat, nat>)
    requires CleanPhase(p, part) && AreChains(p, Pick(p, part, true), comps) && forall i | i in part :: i in instrTask
    ensures Ready(p, Singles(Pick(p, part, false)) + comps, instrTask)
  {
    hide AreChains, GoodChain, Pick;
    var chains := Singles(Pick(p, part, false)) + comps;
    ChainsAreGood(p, part, comps);
    forall c, i | 0 <= c < |chains| && i in chains[c]
      ensures i in instrTask
    {
      ChainsDisjoint(part, chains, c, c, i);
    }
  }

  lemma UnitsOfPhase(p: Program, owner: seq<nat>, part: seq<nat>, comps: seq<seq<nat>>, units: seq<Unit>)
    requires CleanPhase(p, part) && AreChains(p, Pick(p, part, true), comps)
    requires UnitsForChains(p, owner, Singles(Pick(p, part, false)) + comps, units)
    ensures UnitsFor(p, owner, part, units)
  {
    hide AreChains, UnitsForChains, Pick, CleanPhase;
  }

  /** Tasks were added for members of the list only. */
  predicate Adds(was: seq<nat>, owner: seq<nat>, list: seq<nat>) {
    was <= owner && forall t | |was| <= t < |owner| :: owner[t] in list
  }

  lemma AddsOne(was: seq<nat>, mid: seq<nat>, owner: seq<nat>, list: seq<nat>, i: nat)
    requires Adds(was, mid, list) && (owner == mid || owner == mid + [i]) && i in list
    ensures Adds(was, owner, list)
  {
  }

  lemma AddsBoth(was: seq<nat>, mid: seq<nat>, owner: seq<nat>, a: seq<nat>, b: seq<nat>)
    requires Adds(was, mid, a) && Adds(mid, owner, b)
    ensures Adds(was, owner, a + b)
  {
    forall t | |was| <= t < |owner|
      ensures owner[t] in a + b
    {
      assert t < |mid| ==> owner[t] == mid[t];
    }
  }

  predicate InSome(blocks: seq<Block>, i: nat) {
    exists b | 0 <= b < |blocks| :: i in LvlInstrs(blocks[b].lvls)
  }

  /** Every task belongs to an instruction of some block. */
  predicate Owned(owner: seq<nat>, blocks: seq<Block>) {
    forall t | 0 <= t < |owner| :: InSome(blocks, owner[t])
  }

  /** The jobs of all control levels, block by block. */
  function BlockJobs(blocks: seq<Block>): seq<nat> {
    if blocks == [] then [] else BlockJobs(blocks[..|blocks| - 1]) + LvlJobs(blocks[|blocks| - 1].lvls)
  }

  /** Every task and every one of the `m` jobs comes from a level of some block; jobs are numbered
      in the order of these levels. */
  predicate Traced(owner: seq<nat>, m: nat, blocks: seq<Block>) {
    Owned(owner, blocks) && BlockJobs(blocks) == Range(0, m)
  }

  lemma TracedMore(was: seq<nat>, owner: seq<nat>, m: nat, m': nat, blocks: seq<Block>, b: Block)
    requires Traced(was, m, blocks) && Adds(was, owner, LvlInstrs(b.lvls)) && Names(b.lvls, m, m')
    ensures Traced(owner, m', blocks + [b])
  {
    hide Owned, Adds, LvlInstrs, LvlJobs;
    OwnedMore(was, owner, blocks, b);
    assert (blocks + [b])[..|blocks|] == blocks;
    assert Range(0, m) + Range(m, m' - m) == Range(0, m');
  }

  lemma OwnedMore(was: seq<nat>, owner: seq<nat>, blocks: seq<Block>, b: Block)
    requires Owned(was, blocks) && Adds(was, owner, LvlInstrs(b.lvls))
    ensures Owned(owner, blocks + [b])
  {
    hide LvlInstrs;
    var more := blocks + [b];
    forall t | 0 <= t < |owner|
      ensures InSome(more, owner[t])
    {
      if t < |was| {
        assert was[t] == owner[t] && InSome(blocks, was[t]);
        var c :| 0 <= c < |blocks| && owner[t] in LvlInstrs(blocks[c].lvls);
        assert more[c] == blocks[c];
      } else {
        assert more[|blocks|] == b;
      }
    }
  }

  /** The control levels name the jobs from `lo` to `hi`, in order. */
  predicate Names(lvls: seq<Lvl>, lo: nat, hi: nat) {
    lo <= hi && LvlJobs(lvls) == Range(lo, hi - lo)
  }

  lemma NamesNone(lo: nat)
    ensures Names([], lo, lo)
  {
  }

  lemma NamesOne(lvl: Lvl, lo: nat)
    ensures lvl.Work? ==> Names([lvl], lo, lo)
    ensures lvl.Ctrl? && lvl.job == lo ==> Names([lvl], lo, lo + 1)
  {
    assert LvlJobs([lvl]) == JobsAt(lvl) + LvlJobs([]) == JobsAt(lvl);
  }

  lemma NamesMore(lvls: seq<Lvl>, lvl: Lvl, mid: nat, hi: nat)
    requires Names([lvl], mid, hi)
    ensures forall lo :: Names(lvls, lo, mid) ==> Names(lvls + [lvl], lo, hi)
  {
    LvlsConcat(lvls, [lvl]);
    forall lo | Names(lvls, lo, mid)
      ensures Names(lvls + [lvl], lo, hi)
    {
      assert Range(lo, mid - lo) + Range(mid, hi - mid) == Range(lo, hi - lo);
    }
  }

  predicate TidsFor(owner: seq<nat>, chain: seq<nat>, tids: seq<nat>) {
    |tids| == |chain| && forall x | 0 <= x < |tids| :: tids[x] < |owner| && owner[tids[x]] == chain[x]
  }

  /** The first task of a chain is the task of its first operation. */
  lemma FirstTask(p: Program, tasks: seq<Task>, owner: seq<nat>, instrTask: map<nat, nat>, chain: seq<nat>,
                  tids: seq<nat>)
    requires TasksOk(p, tasks, owner, instrTask) && GoodChain(p, chain) && TidsFor(owner, chain, tids)
    ensures tids[0] < |tasks| && tasks[tids[0]] == TaskOf(p.tg, p.instrs[chain[0]])
    ensures tasks[tids[0]].tileOp <= MAX_TILE_OP
    ensures NTiles(p.tg, tasks[tids[0]]) == Tiles(p.tg, p.instrs[chain[0]])
  {
    assert OwnerOk(p, tasks, owner, instrTask, tids[0]);
  }

  class Scheduler {
    const p: Program
    const nLanes: pos
    var lanes: seq<seq<Entry>>
    var tasks: seq<Task>
    var instrTask: map<nat, nat>
    var regionQueue: seq<WhileJob>
    ghost var owner: seq<nat>
    ghost var blocks: seq<Block>
    ghost var jobs: seq<Job>
    ghost var head: nat

    ghost predicate Valid()
      reads this
    {
      && |p.instrs| < TASK_FOR
      && TasksOk(p, tasks, owner, instrTask)
      && TableOk(p, nLanes, lanes, owner, jobs, blocks, head)
      && QueueOk(p, regionQueue, jobs, head)
    }

    constructor (p: Program, nLanes: pos)
      requires |p.instrs| < TASK_FOR
      ensures this.p == p && this.nLanes == nLanes && Valid()
      ensures owner == [] && blocks == [] && jobs == [] && head == 0
      ensures lanes == seq(nLanes, L => [])
    {
      this.p := p;
      this.nLanes := nLanes;
      this.lanes := seq(nLanes, L => []);
      this.tasks := [];
      this.instrTask := map[];
      this.regionQueue := [];
      this.owner, this.blocks, this.jobs, this.head := [], [], [], 0;
    }

    /** The task of an instruction, made on first use. */
    method TaskFor(i: nat) returns (tid: nat)
      requires Valid() && i < |p.instrs| && Schedulable(p.tg, p.instrs[i])
      modifies `tasks, `instrTask, `owner
      ensures Valid() && old(owner) <= owner && (owner == old(owner) || owner == old(owner) + [i])
      ensures tid < |owner| && owner[tid] == i && i in instrTask && instrTask[i] == tid
      ensures i in old(instrTask) ==> owner == old(owner) && instrTask == old(instrTask)
      ensures forall k | k in old(instrTask) :: k in instrTask
    {
      if i in instrTask {
        assert TaskIdOk(owner, instrTask, i);
        return instrTask[i];
      }
      tid := |tasks|;
      ghost var was, table := owner, instrTask;
      instrTask := instrTask[i := tid];
      tasks := tasks + [TaskOf(p.tg, p.instrs[i])];
      owner := owner + [i];
      assert TasksOk(p, tasks, owner, instrTask) by {
        forall t | 0 <= t < |tasks|
          ensures OwnerOk(p, tasks, owner, instrTask, t)
        {
          assert t < |was| ==> OwnerOk(p, old(tasks), was, table, t);
        }
        forall k | k in instrTask
          ensures TaskIdOk(owner, instrTask, k)
        {
          assert k != i ==> TaskIdOk(was, table, k);
        }
      }
      OwnerBound(p, tasks, owner, instrTask);
      TableGrows(p, nLanes, lanes, lanes, was, owner, jobs, blocks, head);
    }

    /** A barrier in every lane. */
    method AddBarrier()
      requires Valid()
      modifies `lanes
      ensures Valid() && |lanes| == nLanes
      ensures forall L | 0 <= L < nLanes :: lanes[L] == old(lanes)[L] + [BARRIER_ENTRY]
    {
      AppendAll(seq(nLanes, L => [BARRIER_ENTRY]));
    }

    /** Appends to every lane. */
    method AppendAll(more: seq<seq<Entry>>)
      requires Valid() && |more| == nLanes
      modifies `lanes
      ensures Valid() && |lanes| == nLanes
      ensures forall L | 0 <= L < nLanes :: lanes[L] == old(lanes)[L] + more[L]
    {
      lanes := AppendEach(lanes, more);
      TableGrows(p, nLanes, old(lanes), lanes, owner, owner, jobs, blocks, head);
    }

    /** The task ids of one chain whose tasks exist. */
    method TidsOf(chain: seq<nat>) returns (tids: seq<nat>)
      requires Valid() && GoodChain(p, chain) && forall i | i in chain :: i in instrTask
      modifies `tasks, `instrTask, `owner
      ensures Valid() && owner == old(owner) && instrTask == old(instrTask)
      ensures TidsFor(owner, chain, tids)
    {
      hide TasksOk, TableOk, QueueOk, TaskOf, Schedulable;
      tids := [];
      var k := 0;
      while k < |chain|
        invariant 0 <= k <= |chain|
        invariant Valid() && owner == old(owner) && instrTask == old(instrTask)
        invariant TidsFor(owner, chain[..k], tids)
      {
        var tid := TaskFor(chain[k]);
        tids := tids + [tid];
        k := k + 1;
      }
      assert chain[..k] == chain;
    }

    /** The unit of one chain whose tasks exist. */
    method UnitOf(chain: seq<nat>) returns (u: Unit)
      requires Valid() && GoodChain(p, chain) && forall i | i in chain :: i in instrTask
      modifies `tasks, `instrTask, `owner
      ensures Valid() && owner == old(owner) && instrTask == old(instrTask)
      ensures UnitFor(p, owner, chain, u)
    {
      hide TableOk, QueueOk, TaskOf, NTiles, Tiles;
      var tids := TidsOf(chain);
      FirstTask(p, tasks, owner, instrTask, chain, tids);
      var t := tasks[tids[0]];
      var tiles := NTiles(p.tg, t);
      u := Unit(tids, tiles, |tids| as real * tiles as real * p.tg.unitCost(t.tileOp));
    }

    /** Splits a phase into shaped and elementwise operations, making their tasks. */
    method SplitPhase(part: seq<nat>) returns (shaped: seq<nat>, maps: seq<nat>)
      requires Valid() && AllSchedulable(p, part)
      modifies `tasks, `instrTask, `owner
      ensures Valid() && Adds(old(owner), owner, part)
      ensures shaped == Pick(p, part, false) && maps == Pick(p, part, true)
      ensures forall i | i in part :: i in instrTask
    {
      hide TaskOf, TaskIdOk, BlockOk, JobOk, PosAscending;
      shaped, maps := [], [];
      var k := 0;
      while k < |part|
        invariant 0 <= k <= |part| && Valid() && Adds(old(owner), owner, part)
        invariant shaped == Pick(p, part[..k], false) && maps == Pick(p, part[..k], true)
        invariant forall x | 0 <= x < k :: part[x] in instrTask
      {
        ghost var mid := owner;
        var tid := TaskFor(part[k]);
        AddsOne(old(owner), mid, owner, part, part[k]);
        assert OwnerOk(p, tasks, owner, instrTask, tid);
        PickStep(p, part, k);
        if tasks[tid].tileOp == TILE_EW {
          maps := maps + [part[k]];
        } else {
          shaped := shaped + [part[k]];
        }
        k := k + 1;
      }
      assert part[..k] == part;
    }

    /** One unit for each chain. */
    method UnitsOf(chains: seq<seq<nat>>) returns (units: seq<Unit>)
      requires Valid() && Ready(p, chains, instrTask)
      modifies `tasks, `instrTask, `owner
      ensures Valid() && owner == old(owner)
      ensures UnitsForChains(p, owner, chains, units)
    {
      units := [];
      var c := 0;
      while c < |chains|
        invariant 0 <= c <= |chains| && |units| == c
        invariant Valid() && owner == old(owner) && instrTask == old(instrTask)
        invariant forall d | 0 <= d < c :: UnitFor(p, owner, chains[d], units[d])
      {
        var u := UnitOf(chains[c]);
        units := units + [u];
        c := c + 1;
      }
    }

    /** Emits one compute phase, packed onto the lanes. */
    method EmitPhase(part: seq<nat>) returns (ghost units: seq<Unit>)
      requires Valid() && CleanPhase(p, part)
      modifies `lanes, `tasks, `instrTask, `owner
      ensures Valid() && Adds(old(owner), owner, part) && UnitsFor(p, owner, part, units)
      ensures |lanes| == nLanes && forall L: nat | L < nLanes :: lanes[L] == old(lanes)[L] + Packed(units, nLanes)[L]
    {
      hide TasksOk, TableOk, QueueOk, Packed, AreChains, UnitsForChains, CleanPhase, GoodChain, UnitsFor, Pick, Ready;
      CleanInRange(p, part);
      var shaped, maps := SplitPhase(part);
      PickAscending(p, part, true);
      var comps := MapChains(p, maps);
      PhaseReady(p, part, comps, instrTask);
      var built := UnitsOf(Singles(shaped) + comps);
      UnitsOfPhase(p, owner, part, comps, built);
      units := built;
      EmitUnits(built);
    }

    /** Packs the units and appends each placed entry to its lane. */
    method EmitUnits(units: seq<Unit>)
      requires Valid()
      modifies `lanes
      ensures Valid() && |lanes| == nLanes
      ensures forall L: nat | L < nLanes :: lanes[L] == old(lanes)[L] + Packed(units, nLanes)[L]
    {
      var placed := PackUnits(units, nLanes);
      lanes := AppendPlaced(lanes, placed);
      TableGrows(p, nLanes, old(lanes), lanes, owner, owner, jobs, blocks, head);
    }

    /** A control entry in every lane, and a job for its ranges. */
    method EmitWhile(idx: nat, ghost depth: nat)
      requires Valid() && idx < |p.instrs| && p.instrs[idx].IsRegion()
      requires depth < MAX_DEPTH && InstrNested(p, idx, depth)
      modifies `lanes, `regionQueue, `jobs
      ensures Valid() && |lanes| == nLanes
      ensures forall L | 0 <= L < nLanes :: lanes[L] == old(lanes)[L] + [FreshControl(p.instrs[idx])]
      ensures jobs == old(jobs) + [Job(idx, depth, Ends(old(lanes)), false, 0, 0)]
    {
      var ins := p.instrs[idx];
      var pos := Ends(lanes);
      var j := Job(idx, depth, pos, false, 0, 0);
      JobsBefore(p, nLanes, lanes, owner, jobs, blocks, head);
      AppendAll(seq(nLanes, L => [FreshControl(ins)]));
      NewJobOk(p, nLanes, old(lanes), lanes, blocks, j);
      TableAddsJob(p, nLanes, lanes, owner, jobs, blocks, head, j);
      jobs := jobs + [j];
      regionQueue := regionQueue + [WhileJob(pos, Range(FirstRange(ins).0, FirstRange(ins).1),
          Range(SecondRange(ins).0, SecondRange(ins).1), ins.op)];
    }

    /** The entries of one level. */
    method EmitBody(level: Level, ghost range: (nat, nat), ghost depth: nat)
      returns (ghost lvl: Lvl, ghost body: seq<seq<Entry>>)
      requires Valid() && LevelOk(p, level) && depth <= MAX_DEPTH && LevelFits(p, range, depth, level)
      modifies `lanes, `tasks, `instrTask, `owner, `regionQueue, `jobs
      ensures Valid() && Adds(old(owner), owner, LevelInstrs([level])) && old(jobs) <= jobs
      ensures LvlOk(p, owner, jobs, range, depth, lvl) && LvlInstrs([lvl]) == LevelInstrs([level])
      ensures LevelsOf([lvl]) == [level] && Names([lvl], |old(jobs)|, |jobs|)
      ensures IsBody(p, nLanes, jobs, lvl, body, Ends(old(lanes)))
      ensures |lanes| == nLanes && forall L: nat | L < nLanes :: lanes[L] == old(lanes)[L] + body[L]
      ensures Pending(p, jobs[|old(jobs)|..]) == ListWeight(p, LevelInstrs([level]), depth)
    {
      hide Names;
      match level {
        case Compute(part) =>
          ghost var units := EmitPhase(part);
          lvl, body := Work(part, units), Packed(units, nLanes);
          assert LevelInstrs([level]) == part;
          ComputeWeight(p, part, depth);
          NamesOne(lvl, |jobs|);
        case Region(idx) =>
          EmitWhile(idx, depth);
          lvl, body := Ctrl(idx, |old(jobs)|), seq(nLanes, L => [FreshControl(p.instrs[idx])]);
          assert LevelInstrs([level]) == [idx];
          assert jobs[|old(jobs)|..] == [jobs[|old(jobs)|]];
          NamesOne(lvl, |old(jobs)|);
      }
    }

    /** One level, followed by a barrier unless it is the last of its range. */
    method EmitLevel(level: Level, li: nat, total: nat, ghost b: Block) returns (ghost b': Block)
      requires Valid() && Growing(p, nLanes, lanes, owner, jobs, b, total) && |b.lvls| == li < total
      requires LevelOk(p, level) && b.depth <= MAX_DEPTH && LevelFits(p, b.range, b.depth, level)
      modifies `lanes, `tasks, `instrTask, `owner, `regionQueue, `jobs
      ensures Valid() && Adds(old(owner), owner, LevelInstrs([level])) && old(jobs) <= jobs
      ensures LanesGrow(old(lanes), lanes)
      ensures Growing(p, nLanes, lanes, owner, jobs, b', total)
      ensures b'.range == b.range && b'.depth == b.depth && b.at <= b'.at && |b'.lvls| == li + 1
      ensures LvlInstrs(b'.lvls) == LvlInstrs(b.lvls) + LevelInstrs([level])
      ensures LevelsOf(b'.lvls) == LevelsOf(b.lvls) + [level]
      ensures forall lo :: Names(b.lvls, lo, |old(jobs)|) ==> Names(b'.lvls, lo, |jobs|)
      ensures Pending(p, jobs[|old(jobs)|..]) == ListWeight(p, LevelInstrs([level]), b.depth)
    {
      hide TasksOk, TableOk, QueueOk, Growing, LevelFits, LevelOk, IsBody, LvlOk, Names;
      OwnerBound(p, tasks, owner, instrTask);
      ghost var lvl, body := EmitBody(level, b.range, b.depth);
      if li != total - 1 {
        AddBarrier();
      }
      OwnerBound(p, tasks, owner, instrTask);
      BodyAppended(p, nLanes, old(lanes), lanes, old(owner), owner, old(jobs), jobs, b, lvl, body, total);
      b' := b.(lvls := b.lvls + [lvl], at := b.at + [Ends(lanes)]);
      LvlsConcat(b.lvls, [lvl]);
      NamesMore(b.lvls, lvl, |old(jobs)|, |jobs|);
    }

    /** Appends one instruction range to every lane, with a barrier between its levels. */
    method ScheduleRange(indices: seq<nat>, ghost range: (nat, nat), ghost depth: nat) returns (ghost b: Block)
      requires Valid() && depth <= MAX_DEPTH && Nested(p, range, depth) && indices == Range(range.0, range.1)
      modifies `lanes, `tasks, `instrTask, `owner, `regionQueue, `jobs
      ensures Valid() && Adds(old(owner), owner, LvlInstrs(b.lvls)) && old(jobs) <= jobs && LanesGrow(old(lanes), lanes)
      ensures BlockOk(p, nLanes, lanes, owner, jobs, b) && b.range == range && b.depth == depth
      ensures b.at[0] == Ends(old(lanes)) && b.at[|b.lvls|] == Ends(lanes)
      ensures Names(b.lvls, |old(jobs)|, |jobs|)
      ensures Pending(p, jobs[|old(jobs)|..]) == RangeWeight(p, range, depth)
    {
      hide PosAscending, CleanPhase, FirstRange, LvlOk, LevelAt, EntryOk, Names;
      var levels := BuildLevels(p, indices);
      RangeLevels(p, range, depth, levels);
      b := Block(range, depth, [], [Ends(lanes)]);
      assert levels[..0] == [] && Growing(p, nLanes, lanes, owner, jobs, b, |levels|);
      assert LvlInstrs([]) == LevelInstrs([]) && LevelsOf([]) == [];
      NamesNone(|jobs|);
      LanesGrowNot(lanes);
      hide Growing, LevelsOf, LvlInstrs, Names, LevelInstrs, BlockOk, LanesGrow;
      var li := 0;
      while li < |levels|
        invariant 0 <= li <= |levels|
        invariant Valid() && Adds(old(owner), owner, LvlInstrs(b.lvls)) && old(jobs) <= jobs
        invariant LanesGrow(old(lanes), lanes)
        invariant Growing(p, nLanes, lanes, owner, jobs, b, |levels|)
        invariant b.range == range && b.depth == depth && |b.lvls| == li
        invariant b.at != [] && b.at[0] == Ends(old(lanes))
        invariant LvlInstrs(b.lvls) == LevelInstrs(levels[..li]) && LevelsOf(b.lvls) == levels[..li]
        invariant Names(b.lvls, |old(jobs)|, |jobs|)
        invariant Pending(p, jobs[|old(jobs)|..]) == ListWeight(p, LevelInstrs(levels[..li]), depth)
      {
        ghost var before, was, mid, done := jobs, lanes, owner, LvlInstrs(b.lvls);
        b := EmitLevel(levels[li], li, |levels|, b);
        AddsBoth(old(owner), mid, owner, done, LevelInstrs([levels[li]]));
        LanesGrowOn(old(lanes), was, lanes);
        WeightStep(p, levels, li, depth, |old(jobs)|, before, jobs);
        li := li + 1;
      }
      assert levels[..li] == levels;
      GrownIsOk(p, nLanes, lanes, owner, jobs, b, levels);
      LiveWeight(p, indices, depth);
    }

    /** Lays out the root range. A root that leaves every lane empty gets one barrier, so that
        the streams have an entry. */
    method ScheduleRoot() returns (rootLens: seq<nat>)
      requires Valid() && owner == [] && jobs == [] && blocks == [] && lanes == seq(nLanes, L => [])
      requires Nested(p, (0, p.mainLen), 0)
      modifies `lanes, `tasks, `instrTask, `owner, `regionQueue, `jobs, `blocks
      ensures Valid() && |blocks| == 1 && Tiled(nLanes, blocks, Ends(lanes)) && Traced(owner, |jobs|, blocks)
      ensures blocks[0].range == (0, p.mainLen) && blocks[0].depth == 0 && rootLens == blocks[0].at[|blocks[0].lvls|]
    {
      hide TasksOk, TableOk, LvlJobs, Traced;
      NoEnds(nLanes, lanes);
      ghost var root := ScheduleRange(Range(0, p.mainLen), (0, p.mainLen), 0);
      root := PadIfEmpty(root);
      rootLens := Ends(lanes);
      AddBlock(root);
      assert [] + [root] == [root];
      TracedByRoot(owner, |jobs|, root);
      RootTiled(nLanes, root, Ends(lanes));
    }

    /** Closes a root that left every lane empty with one barrier. */
    method PadIfEmpty(ghost root: Block) returns (ghost padded: Block)
      requires Valid() && BlockOk(p, nLanes, lanes, owner, jobs, root) && root.at[|root.lvls|] == Ends(lanes)
      requires root.depth == 0
      modifies `lanes
      ensures Valid() && BlockOk(p, nLanes, lanes, owner, jobs, padded) && |padded.at| == |padded.lvls| + 1
      ensures padded.range == root.range && padded.depth == root.depth && padded.at[0] == root.at[0]
      ensures padded.at[|padded.lvls|] == Ends(lanes) && LvlInstrs(padded.lvls) == LvlInstrs(root.lvls)
      ensures LvlJobs(padded.lvls) == LvlJobs(root.lvls)
    {
      hide TasksOk, TableOk, QueueOk, Nested, LvlInstrs, LvlJobs, RowsOk, LevelsFrom, LevelsOf, Live;
      BlockRows(p, nLanes, lanes, owner, jobs, root);
      padded := root;
      if forall lane | 0 <= lane < |lanes| :: lanes[lane] == [] {
        var empty := lanes;
        AddBarrier();
        PaddedRootOk(p, nLanes, empty, lanes, owner, jobs, root);
        padded := PadRoot(root, nLanes);
        assert Ends(lanes) == Ones(nLanes);
      }
    }

    /** Schedules the ranges of the first waiting region after everything laid out so far, and
        fills in its control entries. */
    method ScheduleRegion()
      requires Valid() && regionQueue != [] && Tiled(nLanes, blocks, Ends(lanes)) && Numbered(jobs, blocks, head)
      requires Traced(owner, |jobs|, blocks)
      modifies this
      ensures Valid() && Tiled(nLanes, blocks, Ends(lanes)) && Numbered(jobs, blocks, head) && old(blocks) <= blocks
      ensures Traced(owner, |jobs|, blocks)
      ensures head == old(head) + 1 && Pending(p, jobs[head..]) < Pending(p, old(jobs)[old(head)..])
    {
      hide Traced, TableOk, QueueOk;
      var job := regionQueue[0];
      var condStart, bodyStart, bodyEnd;
      ghost var first, second;
      condStart, bodyStart, bodyEnd, first, second := ScheduleRanges(job);
      assert blocks[|blocks| - 2] == first && blocks[|blocks| - 1] == second;
      PatchJob(job, condStart, bodyStart, bodyEnd, |blocks| - 2, |blocks| - 1);
    }

    /** Lays out the two ranges of the first waiting region, one after the other. */
    method ScheduleRanges(job: WhileJob)
      returns (condStart: seq<nat>, bodyStart: seq<nat>, bodyEnd: seq<nat>, ghost first: Block, ghost second: Block)
      requires Valid() && regionQueue != [] && job == regionQueue[0]
      requires blocks != [] && Tiled(nLanes, blocks, Ends(lanes)) && Traced(owner, |jobs|, blocks)
      modifies `lanes, `tasks, `instrTask, `owner, `regionQueue, `jobs, `blocks
      ensures Valid() && blocks == old(blocks) + [first, second] && Tiled(nLanes, blocks, Ends(lanes))
      ensures Traced(owner, |jobs|, blocks)
      ensures head < |jobs| && Spans(p, jobs[head], first, second, condStart, bodyStart, bodyEnd)
      ensures regionQueue != [] && regionQueue[0] == job && old(jobs) <= jobs
      ensures Pending(p, jobs[head + 1..]) < Pending(p, old(jobs)[head..])
    {
      hide Tiled, Traced, Pending, TableOk, Range, Nested, InstrWeight;
      ghost var j := jobs[head];
      FirstWaiting(p, nLanes, lanes, owner, jobs, blocks, head, regionQueue);
      assert IsRecord(p, job, j);
      condStart := Ends(lanes);
      first := AppendRange(job.condIndices, FirstRange(p.instrs[j.idx]), j.depth + 1);
      bodyStart := Ends(lanes);
      second := AppendRange(job.bodyIndices, SecondRange(p.instrs[j.idx]), j.depth + 1);
      bodyEnd := Ends(lanes);
      PendingHead(p, jobs, head);
      assert IsRecord(p, regionQueue[0], jobs[head + 0]);
    }

    /** Lays out a range and enters it in the table. */
    method AppendRange(indices: seq<nat>, ghost range: (nat, nat), ghost depth: nat) returns (ghost b: Block)
      requires Valid() && depth <= MAX_DEPTH && Nested(p, range, depth) && indices == Range(range.0, range.1)
      requires blocks != [] && Tiled(nLanes, blocks, Ends(lanes)) && Traced(owner, |jobs|, blocks)
      modifies `lanes, `tasks, `instrTask, `owner, `regionQueue, `jobs, `blocks
      ensures Valid() && old(jobs) <= jobs && blocks == old(blocks) + [b] && Tiled(nLanes, blocks, Ends(lanes))
      ensures Traced(owner, |jobs|, blocks)
      ensures b.range == range && b.depth == depth && |b.at| == |b.lvls| + 1
      ensures b.at[0] == Ends(old(lanes)) && b.at[|b.lvls|] == Ends(lanes)
      ensures Pending(p, jobs[head..]) == Pending(p, old(jobs)[head..]) + RangeWeight(p, range, depth)
    {
      hide Names, Traced;
      b := ScheduleRange(indices, range, depth);
      TiledOnce(nLanes, blocks, b, Ends(old(lanes)), Ends(lanes));
      TracedMore(old(owner), owner, |old(jobs)|, |jobs|, blocks, b);
      AddBlock(b);
      PendingGrows(p, old(jobs), jobs, head);
    }

    ghost method AddBlock(b: Block)
      requires Valid() && BlockOk(p, nLanes, lanes, owner, jobs, b)
      modifies `blocks
      ensures Valid() && blocks == old(blocks) + [b]
    {
      TableAddsBlock(p, nLanes, lanes, owner, jobs, blocks, head, b);
      blocks := blocks + [b];
    }

    /** Fills in every lane's control entry of the region and takes it off the queue. */
    method PatchJob(job: WhileJob, condStart: seq<nat>, bodyStart: seq<nat>, bodyEnd: seq<nat>, ghost a: nat,
                    ghost b: nat)
      requires Valid() && regionQueue != [] && job == regionQueue[0] && a < |blocks| && b < |blocks|
      requires Spans(p, jobs[head], blocks[a], blocks[b], condStart, bodyStart, bodyEnd)
      modifies `lanes, `regionQueue, `jobs, `head
      ensures Valid() && head == old(head) + 1 && jobs[head..] == old(jobs)[head..]
      ensures jobs == old(jobs)[old(head) := old(jobs)[old(head)].(done := true, first := a, second := b)]
      ensures Ends(lanes) == old(Ends(lanes))
    {
      hide PatchedAt, TasksOk, FirstRange, BlockOk, JobOk, PosAscending;
      var was := lanes;
      ghost var j := jobs[head].(done := true, first := a, second := b);
      PatchReady(p, nLanes, lanes, owner, jobs, blocks, head, a, b, condStart, bodyStart, bodyEnd);
      lanes := PatchEach(lanes, job, condStart, bodyStart, bodyEnd);
      FilledIsPatched(p, nLanes, was, lanes, blocks, j, condStart, bodyStart, bodyEnd);
      TablePatches(p, nLanes, was, lanes, owner, jobs, blocks, head, j);
      QueuePops(p, regionQueue, jobs, head, j);
      jobs := jobs[head := j];
      head := head + 1;
      regionQueue := regionQueue[1..];
    }
  }

  /** The two blocks hold the job's ranges, and the rows say where they start and end. */
  predicate Spans(p: Program, j: Job, first: Block, second: Block, condStart: seq<nat>, bodyStart: seq<nat>,
                  bodyEnd: seq<nat>) {
    && j.idx < |p.instrs|
    && first.range == FirstRange(p.instrs[j.idx]) && first.depth == j.depth + 1
    && second.range == SecondRange(p.instrs[j.idx]) && second.depth == j.depth + 1
    && |first.at| == |first.lvls| + 1 && |second.at| == |second.lvls| + 1
    && first.at[0] == condStart && first.at[|first.lvls|] == bodyStart
    && second.at[0] == bodyStart && second.at[|second.lvls|] == bodyEnd
  }

  /** The blocks come in order: the root, then two for each finished job. */
  predicate Numbered(jobs: seq<Job>, blocks: seq<Block>, head: nat) {
    && head <= |jobs| && |blocks| == 2 * head + 1
    && forall j | 0 <= j < head :: jobs[j].first == 2 * j + 1 && jobs[j].second == 2 * j + 2
  }

  lemma TiledOnce(n: nat, blocks: seq<Block>, b: Block, ends: seq<nat>, ends': seq<nat>)
    requires Tiled(n, blocks, ends) && (blocks == [] ==> ends == seq(n, L => 0))
    requires |b.at| == |b.lvls| + 1 && b.at[0] == ends && b.at[|b.lvls|] == ends'
    ensures Tiled(n, blocks + [b], ends')
  {
    var grown := blocks + [b];
    forall c | 0 <= c < |grown|
      ensures EndsAtNext(grown, ends', c)
    {
      if c < |blocks| {
        assert EndsAtNext(blocks, ends, c);
      }
    }
  }

  /** Fills in one control entry. */
  function Filled(e: Entry, op: Op, condStart: nat, bodyStart: nat, bodyEnd: nat): Entry
    requires condStart <= bodyStart <= bodyEnd
  {
    if op == If then
      e.(tileLo := condStart, tileHi := bodyStart - condStart, waitFlag := bodyStart, waitCount := bodyEnd - bodyStart)
    else if e.task == TASK_FOR then
      e.(tileLo := bodyStart, tileHi := bodyEnd - bodyStart)
    else
      e.(tileLo := condStart, tileHi := bodyStart - condStart, waitFlag := bodyStart, waitCount := bodyEnd - bodyStart)
  }

  predicate Rows(n: nat, condStart: seq<nat>, bodyStart: seq<nat>, bodyEnd: seq<nat>) {
    && |condStart| == |bodyStart| == |bodyEnd| == n
    && forall L | 0 <= L < n :: condStart[L] <= bodyStart[L] <= bodyEnd[L]
  }

  method PatchEach(lanes: seq<seq<Entry>>, job: WhileJob, condStart: seq<nat>, bodyStart: seq<nat>, bodyEnd: seq<nat>)
    returns (patched: seq<seq<Entry>>)
    requires Rows(|lanes|, condStart, bodyStart, bodyEnd)
    requires |job.pos| == |lanes| && forall L | 0 <= L < |lanes| :: job.pos[L] < |lanes[L]|
    ensures |patched| == |lanes|
    ensures forall L | 0 <= L < |lanes| ::
              patched[L] == lanes[L][job.pos[L] := Filled(lanes[L][job.pos[L]], job.op, condStart[L], bodyStart[L],
                  bodyEnd[L])]
  {
    patched := lanes;
    var lane := 0;
    while lane < |lanes|
      invariant 0 <= lane <= |lanes| == |patched|
      invariant forall L | 0 <= L < |lanes| ::
              patched[L] == if L < lane then lanes[L][job.pos[L] := Filled(lanes[L][job.pos[L]], job.op, condStart[L],
                  bodyStart[L], bodyEnd[L])]
                            else lanes[L]
    {
      var e := patched[lane][job.pos[lane]];
      patched := patched[lane := patched[lane][job.pos[lane] := Filled(e, job.op, condStart[lane], bodyStart[lane],
          bodyEnd[lane])]];
      lane := lane + 1;
    }
  }

  /** Filling the entry of a finished pair of ranges yields the patched entry. */
  lemma FilledIsPatched(p: Program, n: pos, lanes: seq<seq<Entry>>, lanes': seq<seq<Entry>>, blocks: seq<Block>, j: Job,
                        condStart: seq<nat>, bodyStart: seq<nat>, bodyEnd: seq<nat>)
    requires |lanes| == |lanes'| == |j.pos| == n && j.first < |blocks| && j.second < |blocks|
    requires Spans(p, j, blocks[j.first], blocks[j.second], condStart, bodyStart, bodyEnd) && p.instrs[j.idx].IsRegion()
    requires Rows(n, condStart, bodyStart, bodyEnd)
    requires forall L | 0 <= L < n ::
               && HasLane(blocks[j.first], L) && HasLane(blocks[j.second], L)
               && j.pos[L] < |lanes[L]| && lanes[L][j.pos[L]] == FreshControl(p.instrs[j.idx])
               && lanes'[L] == lanes[L][j.pos[L] :=
                    Filled(lanes[L][j.pos[L]], p.instrs[j.idx].op, condStart[L], bodyStart[L], bodyEnd[L])]
    ensures PatchedAt(p, lanes, lanes', blocks, j)
  {
  }

  lemma PendingGrows(p: Program, jobs: seq<Job>, jobs': seq<Job>, head: nat)
    requires head <= |jobs| && jobs <= jobs'
    ensures Pending(p, jobs'[head..]) == Pending(p, jobs[head..]) + Pending(p, jobs'[|jobs|..])
  {
    assert jobs'[head..] == jobs[head..] + jobs'[|jobs|..];
    PendingConcat(p, jobs[head..], jobs'[|jobs|..]);
  }

  lemma PendingHead(p: Program, jobs: seq<Job>, head: nat)
    requires head < |jobs|
    ensures Pending(p, jobs[head..]) == InstrWeight(p, jobs[head].idx, jobs[head].depth) + Pending(p, jobs[head + 1..])
  {
    assert jobs[head..][1..] == jobs[head + 1..];
  }

  /** What the front of the queue asks for. */
  lemma FirstWaiting(p: Program, n: pos, lanes: seq<seq<Entry>>, owner: seq<nat>, jobs: seq<Job>, blocks: seq<Block>,
                     head: nat, regionQueue: seq<WhileJob>)
    requires TableOk(p, n, lanes, owner, jobs, blocks, head) && QueueOk(p, regionQueue, jobs, head) && regionQueue != []
    ensures head < |jobs| && jobs[head].idx < |p.instrs| && jobs[head].depth < MAX_DEPTH
    ensures var j := jobs[head];
            var ins := p.instrs[j.idx];
            && ins.IsRegion()
            && regionQueue[0].condIndices == Range(FirstRange(ins).0, FirstRange(ins).1)
            && regionQueue[0].bodyIndices == Range(SecondRange(ins).0, SecondRange(ins).1)
            && Nested(p, FirstRange(ins), j.depth + 1) && Nested(p, SecondRange(ins), j.depth + 1)
            && InstrWeight(p, j.idx, j.depth)
              == 1 + RangeWeight(p, FirstRange(ins), j.depth + 1) + RangeWeight(p, SecondRange(ins), j.depth + 1)
  {
    assert IsRecord(p, regionQueue[0], jobs[head + 0]);
    assert JobOk(p, n, lanes, blocks, jobs[head]);
  }

  lemma PatchReady(p: Program, n: pos, lanes: seq<seq<Entry>>, owner: seq<nat>, jobs: seq<Job>, blocks: seq<Block>,
                   head: nat, a: nat, b: nat, condStart: seq<nat>, bodyStart: seq<nat>, bodyEnd: seq<nat>)
    requires TableOk(p, n, lanes, owner, jobs, blocks, head) && head < |jobs| && a < |blocks| && b < |blocks|
    requires Spans(p, jobs[head], blocks[a], blocks[b], condStart, bodyStart, bodyEnd)
    ensures var j := jobs[head];
            && p.instrs[j.idx].IsRegion() && |j.pos| == n && !j.done
            && Rows(n, condStart, bodyStart, bodyEnd)
            && forall L | 0 <= L < n ::
                 && HasLane(blocks[a], L) && HasLane(blocks[b], L)
                 && j.pos[L] < |lanes[L]| && lanes[L][j.pos[L]] == FreshControl(p.instrs[j.idx])
  {
    var j := jobs[head];
    assert JobOk(p, n, lanes, blocks, j);
    assert BlockOk(p, n, lanes, owner, jobs, blocks[a]) && BlockOk(p, n, lanes, owner, jobs, blocks[b]);
    forall L | 0 <= L < n
      ensures HasLane(blocks[a], L) && HasLane(blocks[b], L)
      ensures j.pos[L] < |lanes[L]| && lanes[L][j.pos[L]] == FreshControl(p.instrs[j.idx])
      ensures condStart[L] <= bodyStart[L] <= bodyEnd[L]
    {
      BlockHasLane(p, n, lanes, owner, jobs, blocks[a], L);
      BlockHasLane(p, n, lanes, owner, jobs, blocks[b], L);
      assert EntryAt(p, n, lanes, blocks, j, L);
    }
  }

  // ----- the root ---------------------------------------------------------------------------

  predicate AllEmpty(lanes: seq<seq<Entry>>) {
    forall L | 0 <= L < |lanes| :: lanes[L] == []
  }

  function Ones(n: nat): (row: seq<nat>)
    ensures |row| == n && forall L | 0 <= L < n :: row[L] == 1
  {
    seq(n, L requires 0 <= L < n => 1)
  }

  /** A root without entries, closed by one barrier: its only level (if any) and an empty one. */
  function PadRoot(b: Block, n: nat): Block
    requires b.at != []
  {
    var first := if b.lvls == [] then Work([], []) else b.lvls[0];
    b.(lvls := [first, Work([], [])], at := [b.at[0], Ones(n), Ones(n)])
  }

  lemma NothingPacked(n: pos, L: nat)
    requires L < n
    ensures Packed([], n)[L] == []
  {
    assert SortedChunks([], n) == [];
  }

  lemma NoUnits(p: Program, owner: seq<nat>)
    ensures CleanPhase(p, []) && UnitsFor(p, owner, [], [])
  {
    var none: seq<seq<nat>> := [];
    assert Pick(p, [], true) == [] && Singles(Pick(p, [], false)) + none == [];
    assert AreChains(p, Pick(p, [], true), none);
    assert UnitsForChains(p, owner, Singles(Pick(p, [], false)) + none, []);
  }

  lemma EmptyRoot(p: Program, n: pos, lanes: seq<seq<Entry>>, owner: seq<nat>, jobs: seq<Job>, b: Block)
    requires BlockOk(p, n, lanes, owner, jobs, b) && AllEmpty(lanes) && b.at[|b.lvls|] == Ends(lanes)
    ensures |b.lvls| <= 1 && b.at[0] == Ends(lanes)
    ensures b.lvls != [] ==> b.lvls[0].Work? && forall L: nat | L < n :: Packed(b.lvls[0].units, n)[L] == []
  {
    forall L: nat | L < n
      ensures b.at[0][L] == 0
    {
      RowsAscend(p, n, lanes, owner, jobs, b, |b.lvls|, 0, L);
    }
    if b.lvls != [] {
      forall L: nat | L < n
        ensures |b.lvls| == 1 && b.lvls[0].Work? && Packed(b.lvls[0].units, n)[L] == []
      {
        RowsAscend(p, n, lanes, owner, jobs, b, |b.lvls|, 1, L);
        assert RowAt(n, lanes, jobs, b, |b.lvls|, 0, L);
      }
      assert RowAt(n, lanes, jobs, b, |b.lvls|, 0, 0);
      RowsAscend(p, n, lanes, owner, jobs, b, |b.lvls|, 1, 0);
    }
  }

  lemma PaddedRows(n: pos, lanes': seq<seq<Entry>>, jobs: seq<Job>, b: Block, L: nat)
    requires |b.at| == |b.lvls| + 1 && |b.lvls| <= 1 && |b.at[0]| == n && L < n && b.at[0][L] == 0
    requires b.lvls != [] ==> b.lvls[0].Work? && Packed(b.lvls[0].units, n)[L] == []
    requires |lanes'| == n && lanes'[L] == [BARRIER_ENTRY]
    ensures Shaped(n, PadRoot(b, n))
    ensures RowAt(n, lanes', jobs, PadRoot(b, n), 2, 0, L) && RowAt(n, lanes', jobs, PadRoot(b, n), 2, 1, L)
  {
    NothingPacked(n, L);
    assert lanes'[L][0..1] == [BARRIER_ENTRY];
  }

  lemma BlockRows(p: Program, n: pos, lanes: seq<seq<Entry>>, owner: seq<nat>, jobs: seq<Job>, b: Block)
    requires BlockOk(p, n, lanes, owner, jobs, b)
    ensures |lanes| == n && |b.at| == |b.lvls| + 1
  {
    hide LvlAt, RowAt, Nested, LevelsFrom, Live;
  }

  lemma NoEnds(n: nat, lanes: seq<seq<Entry>>)
    requires lanes == seq(n, L => [])
    ensures Ends(lanes) == seq(n, L => 0)
  {
  }

  lemma TracedByRoot(owner: seq<nat>, m: nat, root: Block)
    requires Adds([], owner, LvlInstrs(root.lvls)) && Names(root.lvls, 0, m)
    ensures Traced(owner, m, [root])
  {
    hide LvlInstrs, LvlJobs;
    assert Traced([], 0, []);
    TracedMore([], owner, 0, m, [], root);
    assert [] + [root] == [root];
  }

  lemma RootTiled(n: nat, root: Block, ends: seq<nat>)
    requires |root.at| == |root.lvls| + 1 && root.at[0] == seq(n, L => 0) && root.at[|root.lvls|] == ends
    ensures Tiled(n, [root], ends)
  {
    assert EndsAtNext([root], ends, 0);
  }

  lemma PaddedRootOk(p: Program, n: pos, lanes: seq<seq<Entry>>, lanes': seq<seq<Entry>>, owner: seq<nat>,
                     jobs: seq<Job>, b: Block)
    requires BlockOk(p, n, lanes, owner, jobs, b) && AllEmpty(lanes) && b.at[|b.lvls|] == Ends(lanes) && b.depth == 0
    requires |lanes'| == n && forall L | 0 <= L < n :: lanes'[L] == [BARRIER_ENTRY]
    ensures BlockOk(p, n, lanes', owner, jobs, PadRoot(b, n))
    ensures b.at[0] == Ends(lanes) && LvlInstrs(PadRoot(b, n).lvls) == LvlInstrs(b.lvls)
    ensures LvlJobs(PadRoot(b, n).lvls) == LvlJobs(b.lvls)
  {
    hide LvlOk, LevelAt, Packed, Nested, LevelsFrom, Live, LvlInstrs, LvlJobs, LevelsOf;
    EmptyRoot(p, n, lanes, owner, jobs, b);
    assert forall k | 0 <= k < |b.lvls| :: LvlAt(p, owner, jobs, b, k);
    PaddedLvls(p, n, owner, jobs, b);
    PaddedInstrs(b, n);
    PaddedRowsOk(p, n, lanes', owner, jobs, b);
    hide RowsOk;
  }

  lemma PaddedRowsOk(p: Program, n: pos, lanes': seq<seq<Entry>>, owner: seq<nat>, jobs: seq<Job>, b: Block)
    requires |b.at| == |b.lvls| + 1 && |b.lvls| <= 1 && |b.at[0]| == n && forall L | 0 <= L < n :: b.at[0][L] == 0
    requires b.lvls != [] ==> b.lvls[0].Work? && forall L: nat | L < n :: Packed(b.lvls[0].units, n)[L] == []
    requires |lanes'| == n && forall L | 0 <= L < n :: lanes'[L] == [BARRIER_ENTRY]
    requires forall k | 0 <= k < 2 :: LvlAt(p, owner, jobs, PadRoot(b, n), k)
    ensures RowsOk(p, n, lanes', owner, jobs, PadRoot(b, n), 2)
  {
    hide LvlAt, LevelAt, RowAt, Packed;
    PaddedRows(n, lanes', jobs, b, 0);
    forall k, L: nat | 0 <= k < 2 && L < n
      ensures RowAt(n, lanes', jobs, PadRoot(b, n), 2, k, L)
    {
      PaddedRows(n, lanes', jobs, b, L);
    }
  }

  lemma PaddedLvls(p: Program, n: pos, owner: seq<nat>, jobs: seq<Job>, b: Block)
    requires b.at != [] && |b.lvls| <= 1 && forall k | 0 <= k < |b.lvls| :: LvlAt(p, owner, jobs, b, k)
    ensures forall k | 0 <= k < 2 :: LvlAt(p, owner, jobs, PadRoot(b, n), k)
  {
    NoUnits(p, owner);
    assert b.lvls != [] ==> LvlAt(p, owner, jobs, b, 0);
  }

  lemma PaddedInstrs(b: Block, n: nat)
    requires b.at != [] && |b.lvls| <= 1
    ensures LvlInstrs(PadRoot(b, n).lvls) == LvlInstrs(b.lvls) && LevelsOf(PadRoot(b, n).lvls) == LevelsOf(b.lvls)
    ensures LvlJobs(PadRoot(b, n).lvls) == LvlJobs(b.lvls)
  {
    var lvls := PadRoot(b, n).lvls;
    assert lvls == [lvls[0]] + [Work([], [])];
    LvlsConcat([lvls[0]], [Work([], [])]);
    assert LvlInstrs([Work([], [])]) == [] + LvlInstrs([]) && LevelsOf([Work([], [])]) == [] + LevelsOf([]);
    assert LvlJobs([Work([], [])]) == [] + LvlJobs([]);
    assert b.lvls == if b.lvls == [] then [] else [lvls[0]];
  }

  /** What a schedule amounts to: the table describes all of it, no region is left waiting, the
      first block is the root, and the blocks tile the lanes. */
  ghost predicate Built(p: Program, n: pos, s: Schedule, owner: seq<nat>, blocks: seq<Block>, jobs: seq<Job>) {
    && s.nLanes == n && s.nFlags == 0
    && |s.tasks| == |owner|
      && (forall t | 0 <= t < |owner| :: owner[t] < |p.instrs| && s.tasks[t] == TaskOf(p.tg, p.instrs[owner[t]]))
    && (forall t | 0 <= t < |owner| :: Schedulable(p.tg, p.instrs[owner[t]]))
    && (forall t, u | 0 <= t < u < |owner| :: owner[t] != owner[u])
    && TableOk(p, n, s.laneStreams, owner, jobs, blocks, |jobs|)
    && blocks != [] && Tiled(n, blocks, Ends(s.laneStreams))
    && blocks[0].range == (0, p.mainLen) && blocks[0].depth == 0
    && s.rootLens == blocks[0].at[|blocks[0].lvls|]
    && Numbered(jobs, blocks, |jobs|)
  }

  /** Schedules the root and then, breadth first, every region. */
  method ScheduleProgram(p: Program, nLanes: pos)
    returns (s: Schedule, ghost owner: seq<nat>, ghost blocks: seq<Block>, ghost jobs: seq<Job>)
    requires |p.instrs| < TASK_FOR && Nested(p, (0, p.mainLen), 0)
    ensures Built(p, nLanes, s, owner, blocks, jobs) && Traced(owner, |jobs|, blocks)
  {
    var sc := new Scheduler(p, nLanes);
    var rootLens := sc.ScheduleRoot();
    ghost var root := sc.blocks[0];
    while sc.regionQueue != []
      invariant sc.p == p && sc.nLanes == nLanes && sc.Valid() && fresh(sc)
      invariant sc.blocks != [] && sc.blocks[0] == root && Tiled(nLanes, sc.blocks, Ends(sc.lanes))
      invariant Numbered(sc.jobs, sc.blocks, sc.head) && Traced(sc.owner, |sc.jobs|, sc.blocks)
      decreases Pending(p, sc.jobs[sc.head..])
    {
      sc.ScheduleRegion();
    }
    s := Schedule(0, nLanes, sc.tasks, sc.lanes, rootLens);
    owner, blocks, jobs := sc.owner, sc.blocks, sc.jobs;
    OwnersDistinct(p, sc.tasks, owner, sc.instrTask);
  }

  lemma OwnersDistinct(p: Program, tasks: seq<Task>, owner: seq<nat>, instrTask: map<nat, nat>)
    requires TasksOk(p, tasks, owner, instrTask)
    ensures forall t | 0 <= t < |owner| :: owner[t] < |p.instrs| && tasks[t] == TaskOf(p.tg, p.instrs[owner[t]])
    ensures forall t | 0 <= t < |owner| :: Schedulable(p.tg, p.instrs[owner[t]])
    ensures forall t, u | 0 <= t < u < |owner| :: owner[t] != owner[u]
  {
    forall t | 0 <= t < |owner|
      ensures owner[t] < |p.instrs| && tasks[t] == TaskOf(p.tg, p.instrs[owner[t]])
      ensures Schedulable(p.tg, p.instrs[owner[t]])
    {
      assert OwnerOk(p, tasks, owner, instrTask, t);
    }
    forall t, u | 0 <= t < u < |owner|
      ensures owner[t] != owner[u]
    {
      assert OwnerOk(p, tasks, owner, instrTask, t) && OwnerOk(p, tasks, owner, instrTask, u);
    }
  }
}
