/** The loader's checks on the lanes of a schedule, and why every built schedule passes them:
    equal barrier counts, sub-ranges inside the stream, at or behind the root, and disjoint. */
module Acceptance {
  import opened Arith
  import opened Isa
  import opened Streams
  import opened Packing
  import opened PhaseUnits
  import opened Reference
  import opened Levels
  import opened Layout
  import opened Scheduler

  function Barriers(stream: seq<Entry>): nat {
    if stream == [] then 0
    else Barriers(stream[..|stream| - 1]) + if stream[|stream| - 1].task == TASK_BARRIER then 1 else 0
  }

  /** One entry of a stream of `count` entries. */
  predicate EntryAccepted(e: Entry, count: nat, nTasks: nat, nBuffers: nat) {
    if e.task == TASK_BARRIER then true
    else if e.task == TASK_WHILE || e.task == TASK_IF then
      e.signalFlag < nBuffers && e.tileLo + e.tileHi <= count && e.waitFlag + e.waitCount <= count
    else if e.task == TASK_FOR then e.tileLo + e.tileHi <= count
    else e.task == TASK_NOP || e.task < nTasks
  }

  predicate StreamAccepted(stream: seq<Entry>, nTasks: nat, nBuffers: nat) {
    forall x | 0 <= x < |stream| :: EntryAccepted(stream[x], |stream|, nTasks, nBuffers)
  }

  predicate LanesAccepted(s: Schedule, nBuffers: nat) {
    && |s.rootLens| == |s.laneStreams|
    && (forall L | 0 <= L < |s.laneStreams| ::
          s.rootLens[L] <= |s.laneStreams[L]| && StreamAccepted(s.laneStreams[L], |s.tasks|, nBuffers))
    && forall L, R | 0 <= L < |s.laneStreams| && 0 <= R < |s.laneStreams| ::
      Barriers(s.laneStreams[L]) == Barriers(s.laneStreams[R])
  }

  /** Scans one lane, counting barriers. */
  method CheckLane(stream: seq<Entry>, nTasks: nat, nBuffers: nat) returns (ok: bool, barriers: nat)
    ensures ok == StreamAccepted(stream, nTasks, nBuffers)
    ensures ok ==> barriers == Barriers(stream)
  {
    barriers := 0;
    var e := 0;
    while e < |stream|
      invariant 0 <= e <= |stream| && barriers == Barriers(stream[..e])
      invariant forall x | 0 <= x < e :: EntryAccepted(stream[x], |stream|, nTasks, nBuffers)
    {
      assert stream[..e + 1][..e] == stream[..e];
      var en := stream[e];
      if en.task == TASK_BARRIER {
        barriers := barriers + 1;
      } else if !EntryAccepted(en, |stream|, nTasks, nBuffers) {
        return false, barriers;
      }
      e := e + 1;
    }
    assert stream[..e] == stream;
    ok := true;
  }

  /** The lane part of the loader's validation. */
  method CheckLanes(s: Schedule, nBuffers: nat) returns (ok: bool)
    requires |s.rootLens| == |s.laneStreams|
    ensures ok == LanesAccepted(s, nBuffers)
  {
    var reference := 0;
    var lane := 0;
    while lane < |s.laneStreams|
      invariant 0 <= lane <= |s.laneStreams|
      invariant forall L | 0 <= L < lane ::
                  && s.rootLens[L] <= |s.laneStreams[L]| && StreamAccepted(s.laneStreams[L], |s.tasks|, nBuffers)
                  && Barriers(s.laneStreams[L]) == reference
    {
      if s.rootLens[lane] > |s.laneStreams[lane]| {
        return false;
      }
      var good, barriers := CheckLane(s.laneStreams[lane], |s.tasks|, nBuffers);
      if !good {
        return false;
      }
      if lane == 0 {
        reference := barriers;
      } else if barriers != reference {
        assert Barriers(s.laneStreams[0]) == reference;
        return false;
      }
      lane := lane + 1;
    }
    ok := true;
  }

  // ----- barriers are uniform -------------------------------------------------------------------

  function BarriersIn(stream: seq<Entry>, lo: nat, hi: nat): nat
    requires lo <= hi <= |stream|
    decreases hi - lo
  {
    if lo == hi then 0 else BarriersIn(stream, lo, hi - 1) + if stream[hi - 1].task == TASK_BARRIER then 1 else 0
  }

  lemma {:induction false} BarriersAll(stream: seq<Entry>, hi: nat)
    requires hi <= |stream|
    ensures BarriersIn(stream, 0, hi) == Barriers(stream[..hi])
  {
    if hi == 0 {
    } else {
      BarriersAll(stream, hi - 1);
      assert stream[..hi][..hi - 1] == stream[..hi - 1];
    }
  }

  lemma {:induction false} BarriersSplit(stream: seq<Entry>, lo: nat, mid: nat, hi: nat)
    requires lo <= mid <= hi <= |stream|
    ensures BarriersIn(stream, lo, hi) == BarriersIn(stream, lo, mid) + BarriersIn(stream, mid, hi)
    decreases hi - mid
  {
    if mid >= hi {
    } else {
      BarriersSplit(stream, lo, mid, hi - 1);
    }
  }

  lemma {:induction false} NoBarriers(stream: seq<Entry>, lo: nat, hi: nat)
    requires lo <= hi <= |stream| && forall x | lo <= x < hi :: stream[x].task != TASK_BARRIER
    ensures BarriersIn(stream, lo, hi) == 0
    decreases hi - lo
  {
    if lo >= hi {
    } else {
      NoBarriers(stream, lo, hi - 1);
    }
  }

  function OneIf(b: bool): nat { if b then 1 else 0 }

  /** A level contributes its closing barrier and nothing else. */
  lemma LevelBarriers(p: Program, n: pos, lanes: seq<seq<Entry>>, owner: seq<nat>, jobs: seq<Job>, b: Block, k: nat,
                      L: nat)
    requires BlockOk(p, n, lanes, owner, jobs, b) && |owner| < TASK_FOR && k < |b.lvls| && L < n
    ensures b.at[k][L] <= b.at[k + 1][L] <= |lanes[L]|
    ensures BarriersIn(lanes[L], b.at[k][L], b.at[k + 1][L]) == OneIf(k + 1 < |b.lvls|)
    ensures forall x | b.at[k][L] <= x < b.at[k + 1][L] ::
              || (lanes[L][x].task < |owner|) || lanes[L][x].task == TASK_BARRIER
              || (b.lvls[k].Ctrl? && x == b.at[k][L])
  {
    hide Packed, Nested, LvlOk, LevelsFrom, Live, LvlInstrs, LevelsOf;
    assert RowAt(n, lanes, jobs, b, |b.lvls|, k, L) && LvlAt(p, owner, jobs, b, k);
    assert b.at[k][L] <= b.at[k + 1][L] <= |lanes[L]|;
    LevelShape(p, n, owner, jobs, b, lanes[L], k, L);
    hide BlockOk, RowAt, LvlAt, LevelAt;
    ClosedCount(lanes[L], b.at[k][L], b.at[k + 1][L], k + 1 < |b.lvls|);
  }

  lemma ClosedCount(stream: seq<Entry>, lo: nat, hi: nat, closed: bool)
    requires lo + OneIf(closed) <= hi <= |stream|
    requires closed ==> stream[hi - 1].task == TASK_BARRIER
    requires forall x | lo <= x < hi - OneIf(closed) :: stream[x].task != TASK_BARRIER
    ensures BarriersIn(stream, lo, hi) == OneIf(closed)
  {
    NoBarriers(stream, lo, hi - OneIf(closed));
  }

  /** The body of a level holds no barrier; a barrier closes every level but the last. */
  lemma LevelShape(p: Program, n: pos, owner: seq<nat>, jobs: seq<Job>, b: Block, stream: seq<Entry>, k: nat, L: nat)
    requires Shaped(n, b) && k < |b.lvls| && L < n && |owner| < TASK_FOR
    requires LvlAt(p, owner, jobs, b, k)
    requires LevelAt(stream, n, jobs, b.lvls[k], b.at[k][L], b.at[k + 1][L], k, |b.lvls|, L)
    ensures var lo, hi := b.at[k][L], b.at[k + 1][L];
            var mid := hi - OneIf(k + 1 < |b.lvls|);
            && lo <= mid && (mid < hi ==> stream[mid].task == TASK_BARRIER)
            && forall x | lo <= x < mid ::
              stream[x].task < |owner| || (b.lvls[k].Ctrl? && x == lo && stream[x].IsControl())
  {
    hide Packed, UnitsFor, CleanPhase, FromRange;
    var lo, hi := b.at[k][L], b.at[k + 1][L];
    match b.lvls[k] {
      case Work(part, units) =>
        UnitsForTids(p, owner, part, units);
        PackedIsOk(owner, units, n);
        WorkShape(stream, lo, hi, Packed(units, n)[L], Closing(k, |b.lvls|), owner);
      case Ctrl(i, j) =>
        assert |stream[lo + 1..hi]| == |Closing(k, |b.lvls|)|;
        if k + 1 < |b.lvls| {
          assert stream[lo + 1..hi][0] == BARRIER_ENTRY;
        }
    }
  }

  lemma WorkShape(stream: seq<Entry>, lo: nat, hi: nat, body: seq<Entry>, closing: seq<Entry>, owner: seq<nat>)
    requires lo <= hi <= |stream| && stream[lo..hi] == body + closing && EntriesOk(owner, body)
    requires closing == [] || closing == [BARRIER_ENTRY]
    ensures hi == lo + |body| + |closing|
    ensures closing != [] ==> stream[hi - 1] == BARRIER_ENTRY
    ensures forall x | lo <= x < hi - |closing| :: stream[x].task < |owner|
  {
    var slice := stream[lo..hi];
    forall x | lo <= x < hi - |closing|
      ensures stream[x].task < |owner|
    {
      assert stream[x] == slice[x - lo] == body[x - lo];
      assert body[x - lo] in body;
    }
    if closing != [] {
      assert stream[hi - 1] == slice[|body|];
    }
  }

  lemma {:induction false} BlockBarriers(p: Program, n: pos, lanes: seq<seq<Entry>>, owner: seq<nat>, jobs: seq<Job>,
                                         b: Block, k: nat, L: nat)
    requires BlockOk(p, n, lanes, owner, jobs, b) && |owner| < TASK_FOR && k <= |b.lvls| && L < n
    ensures b.at[0][L] <= b.at[k][L] <= |lanes[L]|
    ensures BarriersIn(lanes[L], b.at[0][L], b.at[k][L]) == if k == |b.lvls| && k > 0 then k - 1 else k
  {
    hide Nested, LevelsFrom, Live, LvlInstrs, LevelsOf, LvlAt, RowAt, BarriersIn;
    RowsAscend(p, n, lanes, owner, jobs, b, |b.lvls|, k, L);
    if k == 0 {
      NoBarriers(lanes[L], b.at[0][L], b.at[0][L]);
    } else {
      BlockBarriers(p, n, lanes, owner, jobs, b, k - 1, L);
      LevelBarriers(p, n, lanes, owner, jobs, b, k - 1, L);
      BarriersSplit(lanes[L], b.at[0][L], b.at[k - 1][L], b.at[k][L]);
    }
  }

  /** Barriers of a block: one between any two of its levels. */
  function Separators(b: Block): nat { if b.lvls == [] then 0 else |b.lvls| - 1 }

  function SeparatorsUpTo(blocks: seq<Block>, to: nat): nat
    requires to <= |blocks|
  {
    if to == 0 then 0 else SeparatorsUpTo(blocks, to - 1) + Separators(blocks[to - 1])
  }

  /** Every lane of a built schedule has the same number of barriers: one fewer than the levels
      of each block, summed. */
  lemma {:induction false} LaneBarriers(p: Program, n: pos, s: Schedule, owner: seq<nat>, blocks: seq<Block>,
                                        jobs: seq<Job>, to: nat, L: nat)
    requires Built(p, n, s, owner, blocks, jobs) && to < |blocks| && L < n
    ensures |s.laneStreams| == n && HasLane(blocks[to], L) && Stop(blocks[to], L) <= |s.laneStreams[L]|
    ensures BarriersIn(s.laneStreams[L], 0, Stop(blocks[to], L)) == SeparatorsUpTo(blocks, to + 1)
  {
    hide Nested, LevelsFrom, Live, LvlInstrs, LevelsOf, RowsOk, LvlAt, RowAt, JobOk, PosAscending, Numbered,
        Schedulable, TaskOf;
    var b, stream := blocks[to], s.laneStreams[L];
    assert BlockOk(p, n, s.laneStreams, owner, jobs, b);
    BlockHasLane(p, n, s.laneStreams, owner, jobs, b, L);
    BlockBarriers(p, n, s.laneStreams, owner, jobs, b, |b.lvls|, L);
    if to == 0 {
    } else {
      LaneBarriers(p, n, s, owner, blocks, jobs, to - 1, L);
      assert EndsAtNext(blocks, Ends(s.laneStreams), to - 1);
      BarriersSplit(stream, 0, Start(b, L), Stop(b, L));
    }
  }

  lemma UniformBarriers(p: Program, n: pos, s: Schedule, owner: seq<nat>, blocks: seq<Block>, jobs: seq<Job>, L: nat)
    requires Built(p, n, s, owner, blocks, jobs) && L < n
    ensures |s.laneStreams| == n && Barriers(s.laneStreams[L]) == SeparatorsUpTo(blocks, |blocks|)
  {
    var last := |blocks| - 1;
    LaneBarriers(p, n, s, owner, blocks, jobs, last, L);
    assert EndsAtNext(blocks, Ends(s.laneStreams), last);
    BarriersAll(s.laneStreams[L], |s.laneStreams[L]|);
    assert s.laneStreams[L][..|s.laneStreams[L]|] == s.laneStreams[L];
  }

  // ----- sub-ranges -----------------------------------------------------------------------------

  lemma BlockLane(p: Program, n: pos, s: Schedule, owner: seq<nat>, blocks: seq<Block>, jobs: seq<Job>, b: nat, L: nat)
    requires Built(p, n, s, owner, blocks, jobs) && b < |blocks| && L < n
    ensures |s.laneStreams| == n && HasLane(blocks[b], L) && Stop(blocks[b], L) <= |s.laneStreams[L]|
  {
    assert BlockOk(p, n, s.laneStreams, owner, jobs, blocks[b]);
    BlockHasLane(p, n, s.laneStreams, owner, jobs, blocks[b], L);
  }

  lemma NextBlock(p: Program, n: pos, s: Schedule, owner: seq<nat>, blocks: seq<Block>, jobs: seq<Job>, b: nat, L: nat)
    requires Built(p, n, s, owner, blocks, jobs) && b + 1 < |blocks| && L < n
    requires HasLane(blocks[b], L) && HasLane(blocks[b + 1], L)
    ensures Stop(blocks[b], L) == Start(blocks[b + 1], L)
  {
    assert EndsAtNext(blocks, Ends(s.laneStreams), b);
  }

  /** Later blocks lie behind earlier ones in every lane. */
  lemma {:induction false} BlocksApart(p: Program, n: pos, s: Schedule, owner: seq<nat>, blocks: seq<Block>,
                                       jobs: seq<Job>, b: nat, c: nat, L: nat)
    requires Built(p, n, s, owner, blocks, jobs) && b < c < |blocks| && L < n
    ensures HasLane(blocks[b], L) && HasLane(blocks[c], L) && Stop(blocks[b], L) <= Start(blocks[c], L)
    decreases c
  {
    hide Built;
    BlockLane(p, n, s, owner, blocks, jobs, b, L);
    BlockLane(p, n, s, owner, blocks, jobs, c - 1, L);
    BlockLane(p, n, s, owner, blocks, jobs, c, L);
    NextBlock(p, n, s, owner, blocks, jobs, c - 1, L);
    if b >= c - 1 {
    } else {
      BlocksApart(p, n, s, owner, blocks, jobs, b, c - 1, L);
    }
  }

  /** The two sub-ranges of a control entry do not overlap, lie at or behind the end of the root,
      and end before those of any later entry start. */
  lemma SubRangesApart(p: Program, n: pos, s: Schedule, owner: seq<nat>, blocks: seq<Block>, jobs: seq<Job>, i: nat,
                       L: nat)
    requires Built(p, n, s, owner, blocks, jobs) && i < |jobs| && L < n
    ensures jobs[i].first < jobs[i].second < |blocks|
    ensures HasLane(blocks[jobs[i].first], L) && HasLane(blocks[jobs[i].second], L)
    ensures |s.rootLens| == n && s.rootLens[L] <= Start(blocks[jobs[i].first], L)
    ensures Stop(blocks[jobs[i].first], L) <= Start(blocks[jobs[i].second], L)
    ensures forall j {:trigger EndsBefore(blocks, jobs, i, j, L)} | i < j < |jobs| :: EndsBefore(blocks, jobs, i, j, L)
  {
    assert BlockOk(p, n, s.laneStreams, owner, jobs, blocks[0]);
    BlocksApart(p, n, s, owner, blocks, jobs, 0, jobs[i].first, L);
    BlocksApart(p, n, s, owner, blocks, jobs, jobs[i].first, jobs[i].second, L);
    forall j | i < j < |jobs|
      ensures EndsBefore(blocks, jobs, i, j, L)
    {
      BlocksApart(p, n, s, owner, blocks, jobs, jobs[i].second, jobs[j].first, L);
    }
  }

  /** Both sub-ranges of entry `i` end before those of entry `j` start. */
  predicate EndsBefore(blocks: seq<Block>, jobs: seq<Job>, i: nat, j: nat, L: nat)
    requires i < |jobs| && j < |jobs|
  {
    && jobs[i].second < jobs[j].first < |blocks|
    && HasLane(blocks[jobs[i].second], L) && HasLane(blocks[jobs[j].first], L)
    && Stop(blocks[jobs[i].second], L) <= Start(blocks[jobs[j].first], L)
  }

  // ----- every built schedule is accepted ---------------------------------------------------------

  /** Conditions and branch flags are buffers. */
  predicate FlagsKnown(p: Program, nBuffers: nat) {
    forall i | 0 <= i < |p.instrs| && p.instrs[i].op in {While, If} :: p.instrs[i].dst < nBuffers
  }

  lemma ControlAccepted(p: Program, n: pos, s: Schedule, owner: seq<nat>, blocks: seq<Block>, jobs: seq<Job>,
                        nBuffers: nat, j: nat, L: nat)
    requires Built(p, n, s, owner, blocks, jobs) && FlagsKnown(p, nBuffers) && j < |jobs| && L < n
    ensures |s.laneStreams| == n && |jobs[j].pos| == n && jobs[j].pos[L] < |s.laneStreams[L]|
    ensures EntryAccepted(s.laneStreams[L][jobs[j].pos[L]], |s.laneStreams[L]|, |s.tasks|, nBuffers)
  {
    assert JobOk(p, n, s.laneStreams, blocks, jobs[j]);
    assert EntryAt(p, n, s.laneStreams, blocks, jobs[j], L);
    var first, second := blocks[jobs[j].first], blocks[jobs[j].second];
    assert BlockOk(p, n, s.laneStreams, owner, jobs, first) && BlockOk(p, n, s.laneStreams, owner, jobs, second);
    BlockHasLane(p, n, s.laneStreams, owner, jobs, first, L);
    BlockHasLane(p, n, s.laneStreams, owner, jobs, second, L);
  }

  lemma LevelAccepted(p: Program, n: pos, s: Schedule, owner: seq<nat>, blocks: seq<Block>, jobs: seq<Job>,
                      nBuffers: nat, c: nat, k: nat, L: nat)
    requires Built(p, n, s, owner, blocks, jobs) && FlagsKnown(p, nBuffers) && c < |blocks| && L < n
    requires Shaped(n, blocks[c]) && k < |blocks[c].lvls|
    ensures |s.laneStreams| == n && blocks[c].at[k + 1][L] <= |s.laneStreams[L]|
    ensures forall x | blocks[c].at[k][L] <= x < blocks[c].at[k + 1][L] ::
              EntryAccepted(s.laneStreams[L][x], |s.laneStreams[L]|, |s.tasks|, nBuffers)
  {
    var b := blocks[c];
    assert BlockOk(p, n, s.laneStreams, owner, jobs, b);
    LevelBarriers(p, n, s.laneStreams, owner, jobs, b, k, L);
    assert RowAt(n, s.laneStreams, jobs, b, |b.lvls|, k, L) && LvlAt(p, owner, jobs, b, k);
    if b.lvls[k].Ctrl? {
      ControlAccepted(p, n, s, owner, blocks, jobs, nBuffers, b.lvls[k].job, L);
    }
  }

  lemma {:induction false} BlockAccepted(p: Program, n: pos, s: Schedule, owner: seq<nat>, blocks: seq<Block>,
                                         jobs: seq<Job>, nBuffers: nat, c: nat, k: nat, L: nat)
    requires Built(p, n, s, owner, blocks, jobs) && FlagsKnown(p, nBuffers) && c < |blocks| && L < n
    requires Shaped(n, blocks[c]) && k <= |blocks[c].lvls|
    ensures |s.laneStreams| == n && blocks[c].at[k][L] <= |s.laneStreams[L]|
    ensures forall x | blocks[c].at[0][L] <= x < blocks[c].at[k][L] ::
              EntryAccepted(s.laneStreams[L][x], |s.laneStreams[L]|, |s.tasks|, nBuffers)
  {
    assert BlockOk(p, n, s.laneStreams, owner, jobs, blocks[c]);
    RowsAscend(p, n, s.laneStreams, owner, jobs, blocks[c], |blocks[c].lvls|, k, L);
    if k == 0 {
    } else {
      BlockAccepted(p, n, s, owner, blocks, jobs, nBuffers, c, k - 1, L);
      LevelAccepted(p, n, s, owner, blocks, jobs, nBuffers, c, k - 1, L);
    }
  }

  lemma {:induction false} PrefixAccepted(p: Program, n: pos, s: Schedule, owner: seq<nat>, blocks: seq<Block>,
                                          jobs: seq<Job>, nBuffers: nat, c: nat, L: nat)
    requires Built(p, n, s, owner, blocks, jobs) && FlagsKnown(p, nBuffers) && c < |blocks| && L < n
    ensures |s.laneStreams| == n && Shaped(n, blocks[c]) && blocks[c].at[|blocks[c].lvls|][L] <= |s.laneStreams[L]|
    ensures forall x: nat | x < blocks[c].at[|blocks[c].lvls|][L] ::
              EntryAccepted(s.laneStreams[L][x], |s.laneStreams[L]|, |s.tasks|, nBuffers)
  {
    hide FlagsKnown, Nested, LevelsFrom, Live, LvlInstrs, LevelsOf, LvlAt, RowAt, JobOk, EntryAccepted;
    assert BlockOk(p, n, s.laneStreams, owner, jobs, blocks[c]);
    BlockAccepted(p, n, s, owner, blocks, jobs, nBuffers, c, |blocks[c].lvls|, L);
    if c == 0 {
    } else {
      PrefixAccepted(p, n, s, owner, blocks, jobs, nBuffers, c - 1, L);
      assert EndsAtNext(blocks, Ends(s.laneStreams), c - 1);
    }
  }

  /** The loader accepts the lanes of every schedule that the scheduler builds. */
  lemma ScheduleAccepted(p: Program, n: pos, s: Schedule, owner: seq<nat>, blocks: seq<Block>, jobs: seq<Job>,
                         nBuffers: nat)
    requires Built(p, n, s, owner, blocks, jobs) && FlagsKnown(p, nBuffers)
    ensures LanesAccepted(s, nBuffers)
  {
    var last := |blocks| - 1;
    assert BlockOk(p, n, s.laneStreams, owner, jobs, blocks[0]);
    forall L: nat | L < |s.laneStreams|
      ensures s.rootLens[L] <= |s.laneStreams[L]| && StreamAccepted(s.laneStreams[L], |s.tasks|, nBuffers)
      ensures Barriers(s.laneStreams[L]) == SeparatorsUpTo(blocks, |blocks|)
    {
      BlockHasLane(p, n, s.laneStreams, owner, jobs, blocks[0], L);
      UniformBarriers(p, n, s, owner, blocks, jobs, L);
      PrefixAccepted(p, n, s, owner, blocks, jobs, nBuffers, last, L);
      assert EndsAtNext(blocks, Ends(s.laneStreams), last);
    }
  }
}
