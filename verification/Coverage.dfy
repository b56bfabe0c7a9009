/** The coverage check of a whole schedule: every tile of every task, in exactly one entry. */
module Coverage {
  import opened Arith
  import opened Isa
  import opened Interleave
  import opened Streams
  import opened PhaseCut
  import opened Chains
  import opened Packing
  import opened OnePhase
  import opened PhaseUnits
  import opened Reference
  import opened Levels
  import opened PhaseCount
  import opened Layout
  import opened Scheduler

  // ----- the check -----------------------------------------------------------------------------------

  type Span = (nat, nat)

  /** The tile ranges of one task, in the order of a stream. */
  function Spans(es: seq<Entry>, t: nat): seq<Span> {
    if es == [] then []
    else
      var k := |es| - 1;
      Spans(es[..k], t) + if es[k].task == t then [(es[k].tileLo, es[k].tileHi)] else []
  }

  function AllSpans(streams: seq<seq<Entry>>, t: nat): seq<Span> {
    if streams == [] then []
    else
      var k := |streams| - 1;
      AllSpans(streams[..k], t) + Spans(streams[k], t)
  }

  predicate NotAfter(a: Span, b: Span) {
    a.0 < b.0 || (a.0 == b.0 && a.1 <= b.1)
  }

  function InsertSpan(a: Span, s: seq<Span>): (r: seq<Span>)
    ensures multiset(r) == multiset{a} + multiset(s)
  {
    if s == [] || NotAfter(a, s[0]) then [a] + s
    else
      assert s == [s[0]] + s[1..];
      [s[0]] + InsertSpan(a, s[1..])
  }

  function SortSpans(s: seq<Span>): (r: seq<Span>)
    ensures multiset(r) == multiset(s)
  {
    if s == [] then []
    else
      assert s == [s[0]] + s[1..];
      InsertSpan(s[0], SortSpans(s[1..]))
  }

  /** From tile `next` on, the ranges follow each other without gap or overlap up to `tiles`. */
  predicate Covers(spans: seq<Span>, next: nat, tiles: nat) {
    if spans == [] then next == tiles
    else spans[0].0 <= spans[0].1 <= tiles && spans[0].0 == next && Covers(spans[1..], spans[0].1, tiles)
  }

  predicate TaskCovered(tg: Target, t: Task, spans: seq<Span>)
    requires t.tileOp <= MAX_TILE_OP
  {
    Covers(SortSpans(spans), 0, NTiles(tg, t))
  }

  predicate AllCovered(tg: Target, tasks: seq<Task>, streams: seq<seq<Entry>>)
    requires forall t | 0 <= t < |tasks| :: tasks[t].tileOp <= MAX_TILE_OP
  {
    forall t: nat {:trigger AllSpans(streams, t)} | t < |tasks| :: TaskCovered(tg, tasks[t], AllSpans(streams, t))
  }

  function Found(perTask: map<nat, seq<Span>>, t: nat): seq<Span> {
    if t in perTask then perTask[t] else []
  }

  /** The table holds the ranges of all tasks, after those it held before. */
  ghost predicate Holds(perTask0: map<nat, seq<Span>>, perTask: map<nat, seq<Span>>, stream: seq<Entry>) {
    forall t: nat {:trigger Spans(stream, t)} | t < TASK_FOR ::
        Found(perTask, t) == Found(perTask0, t) + Spans(stream, t)
  }

  lemma HoldsNothing(perTask: map<nat, seq<Span>>)
    ensures Holds(perTask, perTask, [])
  {
  }

  lemma HoldsNext(perTask0: map<nat, seq<Span>>, perTask: map<nat, seq<Span>>, stream: seq<Entry>, e: Entry)
    requires Holds(perTask0, perTask, stream)
    ensures Holds(perTask0, if e.IsTile() then perTask[e.task := Found(perTask, e.task) + [(e.tileLo, e.tileHi)]]
        else perTask, stream + [e])
  {
    assert (stream + [e])[..|stream|] == stream;
    forall t: nat | t < TASK_FOR
      ensures Spans(stream + [e], t) == Spans(stream, t) + if e.task == t then [(e.tileLo, e.tileHi)] else []
    {
    }
  }

  /** Collects the tile ranges of one stream under their tasks. */
  method CollectLane(perTask0: map<nat, seq<Span>>, stream: seq<Entry>) returns (perTask: map<nat, seq<Span>>)
    ensures Holds(perTask0, perTask, stream)
  {
    hide Holds, Found;
    perTask := perTask0;
    HoldsNothing(perTask);
    var k := 0;
    while k < |stream|
      invariant 0 <= k <= |stream| && Holds(perTask0, perTask, stream[..k])
    {
      var e := stream[k];
      HoldsNext(perTask0, perTask, stream[..k], e);
      assert stream[..k + 1] == stream[..k] + [e];
      if e.IsTile() {
        perTask := perTask[e.task := Found(perTask, e.task) + [(e.tileLo, e.tileHi)]];
      }
      k := k + 1;
    }
    assert stream[..k] == stream;
  }

  ghost predicate HoldsAll(perTask: map<nat, seq<Span>>, streams: seq<seq<Entry>>) {
    forall t: nat {:trigger AllSpans(streams, t)} | t < TASK_FOR :: Found(perTask, t) == AllSpans(streams, t)
  }

  lemma HoldsNextLane(perTask: map<nat, seq<Span>>, more: map<nat, seq<Span>>, streams: seq<seq<Entry>>,
                      stream: seq<Entry>)
    requires HoldsAll(perTask, streams) && Holds(perTask, more, stream)
    ensures HoldsAll(more, streams + [stream])
  {
    assert (streams + [stream])[..|streams|] == streams;
  }

  method CollectAll(streams: seq<seq<Entry>>) returns (perTask: map<nat, seq<Span>>)
    ensures HoldsAll(perTask, streams)
  {
    perTask := map[];
    assert HoldsAll(perTask, []);
    hide Holds, HoldsAll;
    var lane := 0;
    while lane < |streams|
      invariant 0 <= lane <= |streams| && HoldsAll(perTask, streams[..lane])
    {
      var more := CollectLane(perTask, streams[lane]);
      HoldsNextLane(perTask, more, streams[..lane], streams[lane]);
      assert streams[..lane + 1] == streams[..lane] + [streams[lane]];
      perTask := more;
      lane := lane + 1;
    }
    assert streams[..lane] == streams;
  }

  method CheckTask(spans: seq<Span>, tiles: nat) returns (ok: bool)
    ensures ok == Covers(spans, 0, tiles)
  {
    var next: nat, k := 0, 0;
    while k < |spans|
      invariant 0 <= k <= |spans| && Covers(spans, 0, tiles) == Covers(spans[k..], next, tiles)
    {
      var lo, hi := spans[k].0, spans[k].1;
      assert spans[k..][1..] == spans[k + 1..];
      if !(lo <= hi <= tiles) || lo != next {
        return false;
      }
      next, k := hi, k + 1;
    }
    return next == tiles;
  }

  /** Collects the entries of all lanes by task, and checks each task's ranges in order. */
  method CheckCoverage(tg: Target, tasks: seq<Task>, streams: seq<seq<Entry>>) returns (ok: bool)
    requires |tasks| < TASK_FOR && forall t | 0 <= t < |tasks| :: tasks[t].tileOp <= MAX_TILE_OP
    ensures ok == AllCovered(tg, tasks, streams)
  {
    hide SortSpans, Covers, NTiles, Found;
    var perTask := CollectAll(streams);
    var tid := 0;
    while tid < |tasks|
      invariant 0 <= tid <= |tasks|
      invariant forall t: nat {:trigger AllSpans(streams, t)} | t < tid ::
          TaskCovered(tg, tasks[t], AllSpans(streams, t))
    {
      var good := CheckTask(SortSpans(Found(perTask, tid)), NTiles(tg, tasks[tid]));
      if !good {
        assert !TaskCovered(tg, tasks[tid], AllSpans(streams, tid));
        return false;
      }
      tid := tid + 1;
    }
    return true;
  }

  // ----- what it means ----------------------------------------------------------------------------------

  /** How many of the ranges hold tile `k`. */
  function Count(spans: seq<Span>, k: nat): nat {
    if spans == [] then 0 else Count(spans[1..], k) + if spans[0].0 <= k < spans[0].1 then 1 else 0
  }

  predicate Proper(spans: seq<Span>) {
    forall x | 0 <= x < |spans| :: spans[x].0 < spans[x].1
  }

  predicate Ordered(spans: seq<Span>) {
    forall x, y | 0 <= x < y < |spans| :: spans[x].0 <= spans[y].0
  }

  lemma {:induction false} InsertCounts(a: Span, s: seq<Span>, k: nat)
    ensures Count(InsertSpan(a, s), k) == Count([a] + s, k)
    ensures Ordered(s) ==> Ordered(InsertSpan(a, s))
  {
    assert ([a] + s)[1..] == s;
    if s != [] && !NotAfter(a, s[0]) {
      InsertCounts(a, s[1..], k);
      assert ([a] + s[1..])[1..] == s[1..];
      InsertOrdered(a, s);
    }
  }

  lemma InsertOrdered(a: Span, s: seq<Span>)
    requires s != [] && !NotAfter(a, s[0]) && (Ordered(s[1..]) ==> Ordered(InsertSpan(a, s[1..])))
    ensures Ordered(s) ==> Ordered(InsertSpan(a, s))
  {
    if Ordered(s) {
      var r := InsertSpan(a, s[1..]);
      forall y | 0 <= y < |r|
        ensures s[0].0 <= r[y].0
      {
        assert r[y] in multiset(r);
        if r[y] != a {
          var z :| 0 <= z < |s[1..]| && s[1..][z] == r[y];
          assert s[0].0 <= s[z + 1].0;
        }
      }
    }
  }

  lemma {:induction false} SortCounts(s: seq<Span>, k: nat)
    ensures Count(SortSpans(s), k) == Count(s, k) && Ordered(SortSpans(s))
  {
    if s == [] {
    } else {
      SortCounts(s[1..], k);
      InsertCounts(s[0], SortSpans(s[1..]), k);
      assert ([s[0]] + SortSpans(s[1..]))[1..] == SortSpans(s[1..]);
    }
  }

  lemma SortProper(s: seq<Span>)
    requires Proper(s)
    ensures Proper(SortSpans(s))
  {
    var r := SortSpans(s);
    forall x | 0 <= x < |r|
      ensures r[x].0 < r[x].1
    {
      assert r[x] in multiset(r) && r[x] in multiset(s);
    }
  }

  lemma {:induction false} NoneBelow(spans: seq<Span>, a: nat, k: nat)
    requires k < a && forall x | 0 <= x < |spans| :: spans[x].0 >= a
    ensures Count(spans, k) == 0
  {
    if spans == [] {
    } else {
      NoneBelow(spans[1..], a, k);
    }
  }

  predicate Exactly(spans: seq<Span>, from: nat, tiles: nat, k: nat) {
    Count(spans, k) == if from <= k < tiles then 1 else 0
  }

  /** Sorted, non-empty ranges follow each other exactly when they hold every tile once. */
  lemma {:induction false} CoversMeans(spans: seq<Span>, from: nat, tiles: nat)
    requires Proper(spans) && Ordered(spans) && from <= tiles
    ensures Covers(spans, from, tiles) <==> forall k: nat :: Exactly(spans, from, tiles, k)
  {
    if spans == [] {
      assert Covers(spans, from, tiles) ==> from == tiles;
      assert Exactly(spans, from, tiles, from) ==> from == tiles;
    } else {
      var a, b, rest := spans[0].0, spans[0].1, spans[1..];
      if a == from && b <= tiles {
        CoversMeans(rest, b, tiles);
        forall k: nat
          ensures Exactly(spans, from, tiles, k) <==> Exactly(rest, b, tiles, k)
        {
          if k < b {
            BelowRest(spans, from, tiles, k);
          }
        }
      } else {
        NotExact(spans, from, tiles);
      }
    }
  }

  lemma BelowRest(spans: seq<Span>, from: nat, tiles: nat, k: nat)
    requires Proper(spans) && Ordered(spans) && spans != [] && spans[0].0 == from && k < spans[0].1 <= tiles
    ensures Exactly(spans, from, tiles, k) <==> Exactly(spans[1..], spans[0].1, tiles, k)
  {
    if k < from {
      NoneBelow(spans, from, k);
      NoneBelow(spans[1..], from, k);
    }
  }

  lemma NotExact(spans: seq<Span>, from: nat, tiles: nat)
    requires Proper(spans) && Ordered(spans) && spans != [] && from <= tiles
    requires !(spans[0].0 == from && spans[0].1 <= tiles)
    ensures exists k: nat :: !Exactly(spans, from, tiles, k)
  {
    var a, b := spans[0].0, spans[0].1;
    if a < from {
      assert !Exactly(spans, from, tiles, a);
    } else if b > tiles {
      assert !Exactly(spans, from, tiles, b - 1);
    } else {
      NoneBelow(spans, a, from);
      assert !Exactly(spans, from, tiles, from);
    }
  }

  // ----- the entries of a built schedule ------------------------------------------------------------------

  lemma {:induction false} CountConcat(a: seq<Span>, b: seq<Span>, k: nat)
    ensures Count(a + b, k) == Count(a, k) + Count(b, k)
  {
    if a == [] {
      assert a + b == b;
    } else {
      assert (a + b)[1..] == a[1..] + b;
      CountConcat(a[1..], b, k);
    }
  }

  lemma {:induction false} SpansConcat(a: seq<Entry>, b: seq<Entry>, t: nat)
    ensures Spans(a + b, t) == Spans(a, t) + Spans(b, t)
  {
    if b == [] {
      assert a + b == a;
    } else {
      var k := |b| - 1;
      assert (a + b)[..|a + b| - 1] == a + b[..k];
      SpansConcat(a, b[..k], t);
    }
  }

  /** How many entries of a stretch of a stream hold tile `k` of task `t`. */
  function Hits(es: seq<Entry>, t: nat, k: nat): nat {
    Count(Spans(es, t), k)
  }

  lemma HitsConcat(a: seq<Entry>, b: seq<Entry>, t: nat, k: nat)
    ensures Hits(a + b, t, k) == Hits(a, t, k) + Hits(b, t, k)
  {
    SpansConcat(a, b, t);
    CountConcat(Spans(a, t), Spans(b, t), k);
  }

  /** The same over the first `m` lanes, between two rows of positions. */
  function RowHits(streams: seq<seq<Entry>>, lo: seq<nat>, hi: seq<nat>, m: nat, t: nat, k: nat): nat
    requires m <= |streams| && m <= |lo| && m <= |hi| && forall L | 0 <= L < m :: lo[L] <= hi[L] <= |streams[L]|
  {
    if m == 0 then 0 else RowHits(streams, lo, hi, m - 1, t, k) + Hits(streams[m - 1][lo[m - 1]..hi[m - 1]], t, k)
  }

  lemma {:induction false} RowSplit(streams: seq<seq<Entry>>, lo: seq<nat>, mid: seq<nat>, hi: seq<nat>, m: nat, t: nat,
                                    k: nat)
    requires m <= |streams| && m <= |lo| && m <= |mid| && m <= |hi|
    requires forall L | 0 <= L < m :: lo[L] <= mid[L] <= hi[L] <= |streams[L]|
    ensures RowHits(streams, lo, hi, m, t, k) == RowHits(streams, lo, mid, m, t, k) + RowHits(streams, mid, hi, m, t, k)
  {
    hide Hits;
    if m == 0 {
    } else {
      RowSplit(streams, lo, mid, hi, m - 1, t, k);
      var stream, a, b, c := streams[m - 1], lo[m - 1], mid[m - 1], hi[m - 1];
      assert stream[a..c] == stream[a..b] + stream[b..c];
      HitsConcat(stream[a..b], stream[b..c], t, k);
    }
  }

  lemma NoSpans(streams: seq<seq<Entry>>, t: nat, k: nat)
    requires streams == []
    ensures Count(AllSpans(streams, t), k) == 0
  {
  }

  lemma LastSpans(streams: seq<seq<Entry>>, t: nat, k: nat)
    requires streams != []
    ensures var m := |streams| - 1;
            Count(AllSpans(streams, t), k) == Count(AllSpans(streams[..m], t), k) + Hits(streams[m], t, k)
  {
    hide Spans, Count;
    var m := |streams| - 1;
    CountConcat(AllSpans(streams[..m], t), Spans(streams[m], t), k);
  }

  lemma {:induction false} AllHits(streams: seq<seq<Entry>>, zeros: seq<nat>, m: nat, t: nat, k: nat)
    requires m <= |streams| == |zeros| && forall L | 0 <= L < |zeros| :: zeros[L] == 0
    ensures |Ends(streams)| == |streams|
    ensures Count(AllSpans(streams[..m], t), k) == RowHits(streams, zeros, Ends(streams), m, t, k)
  {
    hide Hits, Spans, AllSpans, Count;
    if m == 0 {
      NoSpans(streams[..m], t, k);
    } else {
      AllHits(streams, zeros, m - 1, t, k);
      LastSpans(streams[..m], t, k);
      assert streams[..m][..m - 1] == streams[..m - 1];
      assert streams[m - 1][0..Ends(streams)[m - 1]] == streams[m - 1];
    }
  }

  // ----- one phase -----------------------------------------------------------------------------------------

  predicate Injective(owner: seq<nat>) {
    forall t, u | 0 <= t < u < |owner| :: owner[t] != owner[u]
  }

  lemma TileStepsHold(i: nat, lo: nat, hi: nat, e: Step)
    requires lo <= hi
    ensures multiset(TileSteps(i, lo, hi))[e] == if e.instr == i && lo <= e.tile < hi then 1 else 0
  {
    TileStepsCount(i, lo, hi, e);
  }

  lemma {:induction false} EntryHits(owner: seq<nat>, es: seq<Entry>, t: nat, k: nat)
    requires EntriesOk(owner, es) && Injective(owner) && t < |owner|
    ensures Hits(es, t, k) == multiset(EntrySteps(owner, es))[Step(owner[t], k)]
  {
    if es == [] {
    } else {
      var e, rest := es[0], es[1..];
      assert es == [e] + rest;
      EntryHits(owner, rest, t, k);
      HitsConcat([e], rest, t, k);
      TileStepsHold(owner[e.task], e.tileLo, e.tileHi, Step(owner[t], k));
      OneHit(e, t, k);
      assert owner[e.task] == owner[t] <==> e.task == t;
      assert EntrySteps(owner, es) == TileSteps(owner[e.task], e.tileLo, e.tileHi) + EntrySteps(owner, rest);
    }
  }

  lemma OneHit(e: Entry, t: nat, k: nat)
    ensures Hits([e], t, k) == if e.task == t && e.tileLo <= k < e.tileHi then 1 else 0
  {
    var span := (e.tileLo, e.tileHi);
    assert [e][..0] == [];
    assert Spans([e], t) == if e.task == t then [span] else [];
    assert Count([span], k) == if span.0 <= k < span.1 then 1 else 0 by {
      assert [span][1..] == [];
    }
  }

  function LaneHits(lanes: seq<seq<Entry>>, m: nat, t: nat, k: nat): nat
    requires m <= |lanes|
  {
    if m == 0 then 0 else LaneHits(lanes, m - 1, t, k) + Hits(lanes[m - 1], t, k)
  }

  lemma {:induction false} BagLast(lanes: seq<seq<Step>>)
    requires lanes != []
    ensures Bag(lanes) == Bag(lanes[..|lanes| - 1]) + multiset(lanes[|lanes| - 1])
  {
    if |lanes| <= 1 {
    } else {
      BagLast(lanes[1..]);
      assert lanes[1..][..|lanes| - 2] == lanes[..|lanes| - 1][1..];
    }
  }

  lemma {:induction false} BagHits(owner: seq<nat>, lanes: seq<seq<Entry>>, steps: seq<seq<Step>>, m: nat, t: nat,
                                   k: nat)
    requires m <= |lanes| == |steps| && Injective(owner) && t < |owner|
    requires forall L | 0 <= L < |lanes| :: EntriesOk(owner, lanes[L]) && steps[L] == EntrySteps(owner, lanes[L])
    ensures LaneHits(lanes, m, t, k) == Bag(steps[..m])[Step(owner[t], k)]
  {
    if m == 0 {
    } else {
      BagHits(owner, lanes, steps, m - 1, t, k);
      BagLast(steps[..m]);
      assert steps[..m][..m - 1] == steps[..m - 1];
      EntryHits(owner, lanes[m - 1], t, k);
    }
  }

  /** A packed phase holds each tile of its instructions once. */
  lemma PhaseHits(p: Program, owner: seq<nat>, part: seq<nat>, units: seq<Unit>, n: pos, t: nat, k: nat)
    requires CleanPhase(p, part) && UnitsFor(p, owner, part, units) && Injective(owner) && t < |owner|
    requires owner[t] < |p.instrs| && Schedulable(p.tg, p.instrs[owner[t]])
    ensures LaneHits(Packed(units, n), n, t, k)
        == if owner[t] in part && k < Tiles(p.tg, p.instrs[owner[t]]) then 1 else 0
  {
    hide UnitsFor, Tiles, Schedulable, LaneHits, Legal, AllSchedulable, StrictlyAscending, Bag;
    PackedBag(p, owner, part, units, n);
    var lanes, steps := Packed(units, n), PackedSteps(owner, units, n);
    assert steps[..n] == steps;
    BagHits(owner, lanes, steps, n, t, k);
    PhaseStepsCount(p, part, Step(owner[t], k));
    AscendingOnce(part, owner[t]);
    assert owner[t] in part <==> owner[t] in multiset(part);
  }

  // ----- levels, blocks, the schedule ------------------------------------------------------------------------

  function InPhase(lvl: Lvl, i: nat): nat {
    match lvl case Work(part, _) => if i in part then 1 else 0 case Ctrl(_, _) => 0
  }

  function InPhases(lvls: seq<Lvl>, i: nat): nat {
    if lvls == [] then 0 else InPhases(lvls[..|lvls| - 1], i) + InPhase(lvls[|lvls| - 1], i)
  }

  lemma NoHit(es: seq<Entry>, t: nat, k: nat)
    requires forall x | 0 <= x < |es| :: es[x].task != t
    ensures Hits(es, t, k) == 0
  {
    NoSpan(es, t);
  }

  lemma {:induction false} NoSpan(es: seq<Entry>, t: nat)
    requires forall x | 0 <= x < |es| :: es[x].task != t
    ensures Spans(es, t) == []
  {
    if es == [] {
    } else {
      NoSpan(es[..|es| - 1], t);
    }
  }

  /** One lane of a level. */
  lemma LevelLaneHits(n: pos, stream: seq<Entry>, jobs: seq<Job>, lvl: Lvl, lo: nat, hi: nat, k: nat, total: nat,
                      L: nat, t: nat, tile: nat)
    requires L < n && LevelAt(stream, n, jobs, lvl, lo, hi, k, total, L) && t < TASK_FOR
    ensures lo <= hi <= |stream|
    ensures Hits(stream[lo..hi], t, tile) == match lvl case Work(_, units) =>
        Hits(Packed(units, n)[L], t, tile) case Ctrl(_, _) => 0
  {
    hide Packed, Hits;
    NoHit(Closing(k, total), t, tile);
    match lvl {
      case Work(_, units) => HitsConcat(Packed(units, n)[L], Closing(k, total), t, tile);
      case Ctrl(_, _) =>
        assert stream[lo..hi] == [stream[lo]] + stream[lo + 1..hi];
        HitsConcat([stream[lo]], Closing(k, total), t, tile);
        NoHit([stream[lo]], t, tile);
    }
  }

  lemma {:induction false} LevelRowHits(p: Program, n: pos, lanes: seq<seq<Entry>>, owner: seq<nat>, jobs: seq<Job>,
                                        b: Block, k: nat, m: nat, t: nat, tile: nat)
    requires BlockOk(p, n, lanes, owner, jobs, b) && k < |b.lvls| && m <= n && t < TASK_FOR
    ensures |lanes| == n && Shaped(n, b) && forall L | 0 <= L < n :: b.at[k][L] <= b.at[k + 1][L] <= |lanes[L]|
    ensures RowHits(lanes, b.at[k], b.at[k + 1], m, t, tile)
         == match b.lvls[k] case Work(_, units) => LaneHits(Packed(units, n), m, t, tile) case Ctrl(_, _) => 0
  {
    hide Packed, Hits, Nested, LevelsFrom, Live, LvlAt, LevelAt;
    forall L | 0 <= L < n
      ensures b.at[k][L] <= b.at[k + 1][L] <= |lanes[L]|
    {
      assert RowAt(n, lanes, jobs, b, |b.lvls|, k, L);
      LevelLaneHits(n, lanes[L], jobs, b.lvls[k], b.at[k][L], b.at[k + 1][L], k, |b.lvls|, L, t, tile);
    }
    if m == 0 {
    } else {
      LevelRowHits(p, n, lanes, owner, jobs, b, k, m - 1, t, tile);
      assert RowAt(n, lanes, jobs, b, |b.lvls|, k, m - 1);
      LevelLaneHits(n, lanes[m - 1], jobs, b.lvls[k], b.at[k][m - 1], b.at[k + 1][m - 1], k, |b.lvls|, m - 1, t, tile);
    }
  }

  /** What the tasks of a built schedule are. */
  ghost predicate TaskKnown(p: Program, owner: seq<nat>, t: nat) {
    t < |owner| < TASK_FOR && Injective(owner) && owner[t] < |p.instrs| && Schedulable(p.tg, p.instrs[owner[t]])
  }

  lemma LevelHits(p: Program, n: pos, lanes: seq<seq<Entry>>, owner: seq<nat>, jobs: seq<Job>, b: Block, k: nat, t: nat,
                  tile: nat)
    requires BlockOk(p, n, lanes, owner, jobs, b) && k < |b.lvls| && TaskKnown(p, owner, t)
    ensures |lanes| == n && Shaped(n, b) && forall L | 0 <= L < n :: b.at[k][L] <= b.at[k + 1][L] <= |lanes[L]|
    ensures RowHits(lanes, b.at[k], b.at[k + 1], n, t, tile)
         == if tile < Tiles(p.tg, p.instrs[owner[t]]) then InPhase(b.lvls[k], owner[t]) else 0
  {
    hide Packed, Hits, Nested, LevelsFrom, Live, RowHits, Tiles;
    LevelRowHits(p, n, lanes, owner, jobs, b, k, n, t, tile);
    assert LvlAt(p, owner, jobs, b, k);
    if b.lvls[k].Work? {
      PhaseHits(p, owner, b.lvls[k].part, b.lvls[k].units, n, t, tile);
    }
  }

  lemma RowsUpTo(p: Program, n: pos, lanes: seq<seq<Entry>>, owner: seq<nat>, jobs: seq<Job>, b: Block, k: nat)
    requires BlockOk(p, n, lanes, owner, jobs, b) && k <= |b.lvls|
    ensures |lanes| == n && Shaped(n, b)
    ensures forall L | 0 <= L < n :: b.at[0][L] <= b.at[k][L] <= b.at[|b.lvls|][L] <= |lanes[L]|
  {
    forall L | 0 <= L < n
      ensures b.at[0][L] <= b.at[k][L] <= b.at[|b.lvls|][L] <= |lanes[L]|
    {
      RowsAscend(p, n, lanes, owner, jobs, b, |b.lvls|, k, L);
    }
  }

  lemma {:induction false} BlockHits(p: Program, n: pos, lanes: seq<seq<Entry>>, owner: seq<nat>, jobs: seq<Job>,
                                     b: Block, k: nat, t: nat, tile: nat)
    requires BlockOk(p, n, lanes, owner, jobs, b) && k <= |b.lvls| && TaskKnown(p, owner, t)
    ensures |lanes| == n && Shaped(n, b)
    ensures forall L | 0 <= L < n :: b.at[0][L] <= b.at[k][L] <= b.at[|b.lvls|][L] <= |lanes[L]|
    ensures RowHits(lanes, b.at[0], b.at[k], n, t, tile)
         == if tile < Tiles(p.tg, p.instrs[owner[t]]) then InPhases(b.lvls[..k], owner[t]) else 0
  {
    hide BlockOk, TaskKnown, Hits, Tiles, InPhase;
    RowsUpTo(p, n, lanes, owner, jobs, b, k);
    if k == 0 {
      NoRow(lanes, b.at[0], n, t, tile);
    } else {
      BlockHits(p, n, lanes, owner, jobs, b, k - 1, t, tile);
      LevelHits(p, n, lanes, owner, jobs, b, k - 1, t, tile);
      RowSplit(lanes, b.at[0], b.at[k - 1], b.at[k], n, t, tile);
      assert b.lvls[..k][..k - 1] == b.lvls[..k - 1];
    }
  }

  lemma {:induction false} NoRow(streams: seq<seq<Entry>>, at: seq<nat>, m: nat, t: nat, k: nat)
    requires m <= |streams| && m <= |at| && forall L | 0 <= L < m :: at[L] <= |streams[L]|
    ensures RowHits(streams, at, at, m, t, k) == 0
  {
    if m == 0 {
    } else {
      NoRow(streams, at, m - 1, t, k);
      assert streams[m - 1][at[m - 1]..at[m - 1]] == [];
    }
  }

  /** In how many phases of the first `m` blocks the instruction is. */
  function Homes(blocks: seq<Block>, i: nat, m: nat): nat
    requires m <= |blocks|
  {
    if m == 0 then 0 else Homes(blocks, i, m - 1) + InPhases(blocks[m - 1].lvls, i)
  }

  lemma BlockOfBuilt(p: Program, n: pos, s: Schedule, owner: seq<nat>, blocks: seq<Block>, jobs: seq<Job>, b: nat)
    requires Built(p, n, s, owner, blocks, jobs) && b < |blocks|
    ensures BlockOk(p, n, s.laneStreams, owner, jobs, blocks[b]) && |s.laneStreams| == n && Shaped(n, blocks[b])
    ensures b == 0 ==> blocks[b].at[0] == seq(n, L => 0)
    ensures b > 0 ==>
        |blocks[b - 1].at| == |blocks[b - 1].lvls| + 1 && blocks[b].at[0] == blocks[b - 1].at[|blocks[b - 1].lvls|]
    ensures b == |blocks| - 1 ==> blocks[b].at[|blocks[b].lvls|] == Ends(s.laneStreams)
  {
    hide BlockOk, Numbered;
    assert BlockOk(p, n, s.laneStreams, owner, jobs, blocks[b]);
    BlockShape(p, n, s.laneStreams, owner, jobs, blocks[b]);
    assert EndsAtNext(blocks, Ends(s.laneStreams), b);
    if b > 0 {
      assert EndsAtNext(blocks, Ends(s.laneStreams), b - 1);
    }
  }

  lemma BlockShape(p: Program, n: pos, lanes: seq<seq<Entry>>, owner: seq<nat>, jobs: seq<Job>, b: Block)
    requires BlockOk(p, n, lanes, owner, jobs, b)
    ensures |lanes| == n && Shaped(n, b)
  {
    hide LvlAt, RowAt, Nested, LevelsFrom, Live;
  }

  lemma TaskOfBuilt(p: Program, n: pos, s: Schedule, owner: seq<nat>, blocks: seq<Block>, jobs: seq<Job>, t: nat)
    requires Built(p, n, s, owner, blocks, jobs) && t < |owner|
    ensures TaskKnown(p, owner, t) && |s.tasks| == |owner| && s.tasks[t] == TaskOf(p.tg, p.instrs[owner[t]])
  {
  }

  lemma {:induction false} BuiltHits(p: Program, n: pos, s: Schedule, owner: seq<nat>, blocks: seq<Block>,
                                     jobs: seq<Job>, m: nat, t: nat, tile: nat, zeros: seq<nat>)
    requires Built(p, n, s, owner, blocks, jobs) && m < |blocks| && t < |owner| && |zeros| == n
    requires forall L | 0 <= L < n :: zeros[L] == 0
    ensures |s.laneStreams| == n && Shaped(n, blocks[m]) && TaskKnown(p, owner, t)
    ensures forall L | 0 <= L < n :: blocks[m].at[|blocks[m].lvls|][L] <= |s.laneStreams[L]|
    ensures RowHits(s.laneStreams, zeros, blocks[m].at[|blocks[m].lvls|], n, t, tile)
         == if tile < Tiles(p.tg, p.instrs[owner[t]]) then Homes(blocks, owner[t], m + 1) else 0
  {
    hide Built, BlockOk, TaskKnown, Hits, Tiles, InPhases;
    var b, lanes := blocks[m], s.laneStreams;
    BlockOfBuilt(p, n, s, owner, blocks, jobs, m);
    TaskOfBuilt(p, n, s, owner, blocks, jobs, t);
    BlockHits(p, n, lanes, owner, jobs, b, |b.lvls|, t, tile);
    assert b.lvls[..|b.lvls|] == b.lvls;
    if m == 0 {
      assert zeros == b.at[0];
      NoRow(lanes, zeros, n, t, tile);
    } else {
      BuiltHits(p, n, s, owner, blocks, jobs, m - 1, t, tile, zeros);
    }
    RowSplit(lanes, zeros, b.at[0], b.at[|b.lvls|], n, t, tile);
  }

  /** Across all lanes, tile `k` of a task is in as many entries as its instruction is in phases. */
  lemma ScheduleHits(p: Program, n: pos, s: Schedule, owner: seq<nat>, blocks: seq<Block>, jobs: seq<Job>, t: nat,
                     tile: nat)
    requires Built(p, n, s, owner, blocks, jobs) && t < |owner|
    ensures TaskKnown(p, owner, t)
    ensures Count(AllSpans(s.laneStreams, t), tile)
         == if tile < Tiles(p.tg, p.instrs[owner[t]]) then Homes(blocks, owner[t], |blocks|) else 0
  {
    hide Built, TaskKnown, Tiles, Homes, BlockOk, RowHits, Count, AllSpans;
    var zeros := Zeros(n);
    SomeBlock(p, n, s, owner, blocks, jobs);
    BuiltHits(p, n, s, owner, blocks, jobs, |blocks| - 1, t, tile, zeros);
    BlockOfBuilt(p, n, s, owner, blocks, jobs, |blocks| - 1);
    AllHits(s.laneStreams, zeros, n, t, tile);
    assert s.laneStreams[..n] == s.laneStreams;
  }

  function Zeros(n: nat): (zeros: seq<nat>)
    ensures |zeros| == n && forall L | 0 <= L < n :: zeros[L] == 0
  {
    seq(n, L => 0)
  }

  lemma SomeBlock(p: Program, n: pos, s: Schedule, owner: seq<nat>, blocks: seq<Block>, jobs: seq<Job>)
    requires Built(p, n, s, owner, blocks, jobs)
    ensures blocks != []
  {
  }

  // ----- non-empty entries ---------------------------------------------------------------------------------

  lemma PartWide(tiles: nat, j: nat, k: pos)
    requires k <= tiles
    ensures Cut(tiles, j, k) < Cut(tiles, j + 1, k)
  {
    var d := Cut(tiles, j, k);
    assert tiles * (j + 1) == tiles * j + tiles;
    assert tiles * j >= d * k by {
      assert tiles * j == tiles * j / k * k + tiles * j % k;
    }
    assert (d + 1) * k == d * k + k;
    DivAtLeast(tiles * (j + 1), d + 1, k);
  }

  predicate WideChunks(chunks: seq<Chunk>) {
    forall x | 0 <= x < |chunks| :: chunks[x].lo < chunks[x].hi
  }

  lemma {:induction false} PartsWide(uid: nat, u: Unit, j: nat, k: nat)
    requires j <= k <= u.tiles
    ensures WideChunks(PartsFrom(uid, u, j, k))
    decreases k - j
  {
    if j >= k {
    } else {
      PartWide(u.tiles, j, k);
      PartsWide(uid, u, j + 1, k);
    }
  }

  lemma {:induction false} AllPartsWide(units: seq<Unit>, start: nat, n: nat, total: real)
    requires start <= |units| && total != 0.0
    ensures WideChunks(PartsOfAll(units, start, n, total))
    decreases |units| - start
  {
    if start >= |units| {
    } else {
      PartsWide(start, units[start], 0, Fanout(units[start], n, total));
      AllPartsWide(units, start + 1, n, total);
    }
  }

  lemma SortedWide(units: seq<Unit>, n: nat)
    ensures WideChunks(SortedChunks(units, n))
  {
    var parts := PartsOfAll(units, 0, n, Divisor(units));
    AllPartsWide(units, 0, n, Divisor(units));
    var sorted := SortedChunks(units, n);
    forall x | 0 <= x < |sorted|
      ensures sorted[x].lo < sorted[x].hi
    {
      assert sorted[x] in multiset(sorted) && sorted[x] in multiset(parts);
    }
  }

  predicate WideEntries(es: seq<Entry>) {
    forall x | 0 <= x < |es| && es[x].IsTile() :: es[x].tileLo < es[x].tileHi
  }

  lemma {:induction false} LaneWide(chunks: seq<Chunk>, place: seq<nat>, lane: nat)
    requires |chunks| == |place| && WideChunks(chunks)
    ensures WideEntries(LaneEntries(chunks, place, lane))
  {
    if chunks == [] {
    } else {
      LaneWide(chunks[..|chunks| - 1], place[..|place| - 1], lane);
    }
  }

  lemma PackedWide(units: seq<Unit>, n: pos, L: nat)
    requires L < n
    ensures WideEntries(Packed(units, n)[L])
  {
    var chunks := SortedChunks(units, n);
    SortedWide(units, n);
    LaneWide(chunks, Place(Costs(chunks), n), L);
  }

  lemma LevelWide(n: pos, stream: seq<Entry>, jobs: seq<Job>, lvl: Lvl, lo: nat, hi: nat, k: nat, total: nat, L: nat)
    requires L < n && LevelAt(stream, n, jobs, lvl, lo, hi, k, total, L)
    ensures lo <= hi <= |stream| && WideEntries(stream[lo..hi])
  {
    hide Packed;
    if lvl.Work? {
      PackedWide(lvl.units, n, L);
    }
    assert lvl.Ctrl? ==> stream[lo..hi] == [stream[lo]] + stream[lo + 1..hi];
  }

  lemma RowWide(p: Program, n: pos, lanes: seq<seq<Entry>>, owner: seq<nat>, jobs: seq<Job>, b: Block, k: nat, L: nat)
    requires BlockOk(p, n, lanes, owner, jobs, b) && k < |b.lvls| && L < n
    ensures |lanes| == n && Shaped(n, b) && b.at[k][L] <= b.at[k + 1][L] <= |lanes[L]|
    ensures WideEntries(lanes[L][b.at[k][L]..b.at[k + 1][L]])
  {
    hide Nested, LevelsFrom, Live, LvlInstrs, LevelsOf, LvlAt, LevelAt, WideEntries;
    assert RowAt(n, lanes, jobs, b, |b.lvls|, k, L);
    LevelWide(n, lanes[L], jobs, b.lvls[k], b.at[k][L], b.at[k + 1][L], k, |b.lvls|, L);
  }

  lemma {:induction false} BlockWide(p: Program, n: pos, lanes: seq<seq<Entry>>, owner: seq<nat>, jobs: seq<Job>,
                                     b: Block, k: nat, L: nat)
    requires BlockOk(p, n, lanes, owner, jobs, b) && k <= |b.lvls| && L < n
    ensures |lanes| == n && Shaped(n, b) && b.at[0][L] <= b.at[k][L] <= b.at[|b.lvls|][L] <= |lanes[L]|
    ensures WideEntries(lanes[L][b.at[0][L]..b.at[k][L]])
  {
    hide BlockOk, WideEntries;
    RowsUpTo(p, n, lanes, owner, jobs, b, k);
    if k == 0 {
      NoneWide(lanes[L], b.at[0][L]);
    } else {
      BlockWide(p, n, lanes, owner, jobs, b, k - 1, L);
      RowWide(p, n, lanes, owner, jobs, b, k - 1, L);
      Joined(lanes[L], b.at[0][L], b.at[k - 1][L], b.at[k][L]);
    }
  }

  lemma NoneWide(stream: seq<Entry>, at: nat)
    requires at <= |stream|
    ensures WideEntries(stream[at..at])
  {
  }

  lemma Joined(stream: seq<Entry>, lo: nat, mid: nat, hi: nat)
    requires lo <= mid <= hi <= |stream| && WideEntries(stream[lo..mid]) && WideEntries(stream[mid..hi])
    ensures WideEntries(stream[lo..hi])
  {
    assert stream[lo..hi] == stream[lo..mid] + stream[mid..hi];
  }

  lemma {:induction false} StreamWide(p: Program, n: pos, s: Schedule, owner: seq<nat>, blocks: seq<Block>,
                                      jobs: seq<Job>, m: nat, L: nat)
    requires Built(p, n, s, owner, blocks, jobs) && m < |blocks| && L < n
    ensures |s.laneStreams| == n && Shaped(n, blocks[m]) && blocks[m].at[|blocks[m].lvls|][L] <= |s.laneStreams[L]|
    ensures WideEntries(s.laneStreams[L][..blocks[m].at[|blocks[m].lvls|][L]])
  {
    hide Built, BlockOk, WideEntries;
    BlockOfBuilt(p, n, s, owner, blocks, jobs, m);
    var b, stream := blocks[m], s.laneStreams[L];
    BlockWide(p, n, s.laneStreams, owner, jobs, b, |b.lvls|, L);
    var start, stop := b.at[0][L], b.at[|b.lvls|][L];
    assert stream[..stop] == stream[0..stop];
    if m == 0 {
    } else {
      StreamWide(p, n, s, owner, blocks, jobs, m - 1, L);
      assert stream[..start] == stream[0..start];
      Joined(stream, 0, start, stop);
    }
  }

  lemma {:induction false} SpansProper(es: seq<Entry>, t: nat)
    requires WideEntries(es) && t < TASK_FOR
    ensures Proper(Spans(es, t))
  {
    if es == [] {
    } else {
      SpansProper(es[..|es| - 1], t);
    }
  }

  lemma {:induction false} AllProper(p: Program, n: pos, s: Schedule, owner: seq<nat>, blocks: seq<Block>,
                                     jobs: seq<Job>, m: nat, t: nat)
    requires Built(p, n, s, owner, blocks, jobs) && m <= n && t < TASK_FOR
    ensures |s.laneStreams| == n && Proper(AllSpans(s.laneStreams[..m], t))
  {
    hide Built, BlockOk, WideEntries, Proper, Spans;
    SomeBlock(p, n, s, owner, blocks, jobs);
    BlockOfBuilt(p, n, s, owner, blocks, jobs, |blocks| - 1);
    if m == 0 {
      NoneProper();
    } else {
      AllProper(p, n, s, owner, blocks, jobs, m - 1, t);
      StreamWide(p, n, s, owner, blocks, jobs, |blocks| - 1, m - 1);
      var stream := s.laneStreams[m - 1];
      assert stream[..|stream|] == stream;
      SpansProper(stream, t);
      assert s.laneStreams[..m][..m - 1] == s.laneStreams[..m - 1];
      BothProper(AllSpans(s.laneStreams[..m - 1], t), Spans(stream, t));
    }
  }

  lemma NoneProper()
    ensures Proper([])
  {
  }

  lemma BothProper(a: seq<Span>, b: seq<Span>)
    requires Proper(a) && Proper(b)
    ensures Proper(a + b)
  {
  }

  // ----- when the check accepts ------------------------------------------------------------------------------

  predicate InRangeOf(b: Block, i: nat) {
    b.range.0 <= i < b.range.0 + b.range.1
  }

  lemma {:induction false} PhaseMember(lvls: seq<Lvl>, i: nat)
    requires forall x | 0 <= x < |lvls| && lvls[x].Ctrl? :: lvls[x].idx != i
    ensures InPhases(lvls, i) > 0 <==> i in LvlInstrs(lvls)
    ensures InPhases(lvls, i) <= multiset(LvlInstrs(lvls))[i]
  {
    hide LvlJobs;
    if lvls == [] {
      NoLevels(i);
    } else {
      var k := |lvls| - 1;
      PhaseMember(lvls[..k], i);
      OneLevel(lvls[k], i);
      LvlsConcat(lvls[..k], [lvls[k]]);
      assert lvls == lvls[..k] + [lvls[k]];
      InBoth(LvlInstrs(lvls[..k]), LvlInstrs([lvls[k]]), i);
    }
  }

  lemma NoLevels(i: nat)
    ensures LvlInstrs([]) == [] && InPhases([], i) == 0
  {
  }

  lemma InBoth(a: seq<nat>, b: seq<nat>, i: nat)
    ensures i in a + b <==> i in a || i in b
    ensures multiset(a + b)[i] == multiset(a)[i] + multiset(b)[i]
  {
  }

  lemma OneLevel(lvl: Lvl, i: nat)
    requires lvl.Ctrl? ==> lvl.idx != i
    ensures InPhase(lvl, i) > 0 <==> i in LvlInstrs([lvl])
    ensures InPhase(lvl, i) <= multiset(LvlInstrs([lvl]))[i]
  {
    assert LvlInstrs([lvl]) == FirstInstrs(lvl) + LvlInstrs([]) == FirstInstrs(lvl);
    assert lvl.Work? && i in lvl.part ==> i in multiset(lvl.part);
  }

  /** Within one block a compute instruction is in one phase, if it is in the block's range. */
  lemma BlockHome(p: Program, n: pos, lanes: seq<seq<Entry>>, owner: seq<nat>, jobs: seq<Job>, b: Block, i: nat)
    requires BlockOk(p, n, lanes, owner, jobs, b) && i < |p.instrs| && Schedulable(p.tg, p.instrs[i])
    ensures InPhases(b.lvls, i) == if InRangeOf(b, i) then 1 else 0
  {
    hide RowsOk, LevelsFrom, Nested, InPhases, StrictlyAscending, LvlInstrs, LevelsOf, Live;
    var indices := Range(b.range.0, b.range.1);
    NoControlOf(p, n, lanes, owner, jobs, b, i);
    PhaseMember(b.lvls, i);
    RangeInBounds(p, b);
    LiveAscending(p, indices);
    AscendingOnce(Live(p, indices), i);
    if InRangeOf(b, i) {
      assert indices[i - b.range.0] == i;
      LiveKeeps(p, indices, i);
    }
    if i in LvlInstrs(b.lvls) {
      LiveMember(p, indices, i);
    }
  }

  /** A compute instruction is not the control level of a block. */
  lemma NoControlOf(p: Program, n: pos, lanes: seq<seq<Entry>>, owner: seq<nat>, jobs: seq<Job>, b: Block, i: nat)
    requires BlockOk(p, n, lanes, owner, jobs, b) && i < |p.instrs| && Schedulable(p.tg, p.instrs[i])
    ensures forall x | 0 <= x < |b.lvls| && b.lvls[x].Ctrl? :: b.lvls[x].idx != i
  {
    hide Nested, LevelsFrom, LvlInstrs, Live, LevelsOf, CleanPhase, UnitsFor, FromRange, RowAt;
    forall x | 0 <= x < |b.lvls| && b.lvls[x].Ctrl?
      ensures b.lvls[x].idx != i
    {
      assert LvlAt(p, owner, jobs, b, x);
    }
  }

  lemma RangeInBounds(p: Program, b: Block)
    requires b.depth <= MAX_DEPTH && Nested(p, b.range, b.depth)
    ensures InRange(p, Range(b.range.0, b.range.1)) && StrictlyAscending(Range(b.range.0, b.range.1))
  {
  }

  lemma {:induction false} LiveAscending(p: Program, indices: seq<nat>)
    requires InRange(p, indices) && StrictlyAscending(indices)
    ensures StrictlyAscending(Live(p, indices))
  {
    if indices == [] {
    } else {
      LiveAscending(p, indices[1..]);
      forall x | 0 <= x < |Live(p, indices[1..])|
        ensures Live(p, indices[1..])[x] > indices[0]
      {
        LiveMember(p, indices[1..], Live(p, indices[1..])[x]);
      }
    }
  }

  /** How many of the first `m` blocks have the instruction in their range. */
  function Ranges(blocks: seq<Block>, i: nat, m: nat): nat
    requires m <= |blocks|
  {
    if m == 0 then 0 else Ranges(blocks, i, m - 1) + if InRangeOf(blocks[m - 1], i) then 1 else 0
  }

  lemma {:induction false} HomesAreRanges(p: Program, n: pos, s: Schedule, owner: seq<nat>, blocks: seq<Block>,
                                          jobs: seq<Job>, i: nat, m: nat)
    requires Built(p, n, s, owner, blocks, jobs) && m <= |blocks| && i < |p.instrs| && Schedulable(p.tg, p.instrs[i])
    ensures Homes(blocks, i, m) == Ranges(blocks, i, m)
  {
    hide Built, BlockOk, Schedulable;
    if m == 0 {
    } else {
      HomesAreRanges(p, n, s, owner, blocks, jobs, i, m - 1);
      BlockOfBuilt(p, n, s, owner, blocks, jobs, m - 1);
      BlockHome(p, n, s.laneStreams, owner, jobs, blocks[m - 1], i);
    }
  }

  lemma {:induction false} RangesPositive(blocks: seq<Block>, i: nat, m: nat)
    requires m <= |blocks|
    ensures Ranges(blocks, i, m) > 0 <==> exists b :: 0 <= b < m && InRangeOf(blocks[b], i)
    ensures Ranges(blocks, i, m) > 1 <==> exists b, c ::
        0 <= b < c < m && InRangeOf(blocks[b], i) && InRangeOf(blocks[c], i)
  {
    hide InRangeOf;
    if m == 0 {
    } else {
      RangesPositive(blocks, i, m - 1);
    }
  }

  lemma TaskCoveredMeans(p: Program, n: pos, s: Schedule, owner: seq<nat>, blocks: seq<Block>, jobs: seq<Job>, t: nat)
    requires Built(p, n, s, owner, blocks, jobs) && t < |owner|
    ensures TaskKnown(p, owner, t) && t < |s.tasks| && s.tasks[t].tileOp <= MAX_TILE_OP
    ensures TaskCovered(p.tg, s.tasks[t], AllSpans(s.laneStreams, t))
       <==> (Tiles(p.tg, p.instrs[owner[t]]) > 0 ==> Ranges(blocks, owner[t], |blocks|) == 1)
  {
    hide Built, Homes, Ranges, Covers, SortSpans, AllSpans, Count, NTiles, Proper;
    TaskOfBuilt(p, n, s, owner, blocks, jobs, t);
    var i, spans := owner[t], AllSpans(s.laneStreams, t);
    var tiles := Tiles(p.tg, p.instrs[i]);
    HomesAreRanges(p, n, s, owner, blocks, jobs, i, |blocks|);
    AllProper(p, n, s, owner, blocks, jobs, n, t);
    assert s.laneStreams[..n] == s.laneStreams;
    SortProper(spans);
    SortCounts(spans, 0);
    CoversMeans(SortSpans(spans), 0, tiles);
    forall k: nat
      ensures Exactly(SortSpans(spans), 0, tiles, k) <==> k >= tiles || Ranges(blocks, i, |blocks|) == 1
    {
      SortCounts(spans, k);
      ScheduleHits(p, n, s, owner, blocks, jobs, t, k);
    }
    if tiles > 0 {
      assert Exactly(SortSpans(spans), 0, tiles, 0) <==> Ranges(blocks, i, |blocks|) == 1;
    }
  }

  /** An instruction of a block's phase has a task. */
  lemma HasTask(p: Program, n: pos, s: Schedule, owner: seq<nat>, blocks: seq<Block>, jobs: seq<Job>, b: nat, i: nat)
    returns (t: nat)
    requires Built(p, n, s, owner, blocks, jobs) && b < |blocks| && i < |p.instrs| && Schedulable(p.tg, p.instrs[i])
    requires InRangeOf(blocks[b], i)
    ensures t < |owner| && owner[t] == i
  {
    hide Built, Schedulable, RowsOk, Nested, LevelsFrom;
    BlockOfBuilt(p, n, s, owner, blocks, jobs, b);
    BlockHome(p, n, s.laneStreams, owner, jobs, blocks[b], i);
    var x := PhaseOf(blocks[b].lvls, i);
    t := TaskInPhase(p, n, s.laneStreams, owner, jobs, blocks[b], x, i);
  }

  lemma {:induction false} PhaseOf(lvls: seq<Lvl>, i: nat) returns (x: nat)
    requires InPhases(lvls, i) > 0
    ensures x < |lvls| && lvls[x].Work? && i in lvls[x].part
  {
    var k := |lvls| - 1;
    if InPhase(lvls[k], i) > 0 {
      x := k;
    } else {
      x := PhaseOf(lvls[..k], i);
    }
  }

  lemma TaskInPhase(p: Program, n: pos, lanes: seq<seq<Entry>>, owner: seq<nat>, jobs: seq<Job>, b: Block, x: nat,
                    i: nat)
    returns (t: nat)
    requires BlockOk(p, n, lanes, owner, jobs, b) && x < |b.lvls| && b.lvls[x].Work? && i in b.lvls[x].part
    ensures t < |owner| && owner[t] == i
  {
    assert LvlAt(p, owner, jobs, b, x);
    hide BlockOk;
    var part, units := b.lvls[x].part, b.lvls[x].units;
    var comps :| AreChains(p, Pick(p, part, true), comps)
      && UnitsForChains(p, owner, Singles(Pick(p, part, false)) + comps, units);
    t := TaskInChains(p, owner, part, comps, units, i);
  }

  lemma TaskInChains(p: Program, owner: seq<nat>, part: seq<nat>, comps: seq<seq<nat>>, units: seq<Unit>, i: nat)
    returns (t: nat)
    requires CleanPhase(p, part) && AreChains(p, Pick(p, part, true), comps) && i in part
    requires UnitsForChains(p, owner, Singles(Pick(p, part, false)) + comps, units)
    ensures t < |owner| && owner[t] == i
  {
    var chains := Singles(Pick(p, part, false)) + comps;
    ChainsPermute(p, part, comps);
    hide AreChains, CleanPhase;
    assert i in multiset(part);
    assert i in multiset(Flatten(chains));
    var c := FlattenFinds(chains, i);
    assert UnitFor(p, owner, chains[c], units[c]);
    var y :| 0 <= y < |chains[c]| && chains[c][y] == i;
    t := units[c].tids[y];
  }

  lemma TasksFit(p: Program, n: pos, s: Schedule, owner: seq<nat>, blocks: seq<Block>, jobs: seq<Job>)
    requires Built(p, n, s, owner, blocks, jobs)
    ensures |s.tasks| == |owner| < TASK_FOR && forall t | 0 <= t < |s.tasks| :: s.tasks[t].tileOp <= MAX_TILE_OP
  {
    hide TableOk, Tiled, TaskOf;
    if |owner| > 0 {
      TaskOfBuilt(p, n, s, owner, blocks, jobs, 0);
    }
    forall t | 0 <= t < |s.tasks|
      ensures s.tasks[t].tileOp <= MAX_TILE_OP
    {
      TaskOfBuilt(p, n, s, owner, blocks, jobs, t);
    }
  }

  lemma LiveInRange(p: Program, n: pos, lanes: seq<seq<Entry>>, owner: seq<nat>, jobs: seq<Job>, b: Block, i: nat)
    requires BlockOk(p, n, lanes, owner, jobs, b) && i in LvlInstrs(b.lvls)
    ensures InRangeOf(b, i)
  {
    hide RowsOk, LevelsFrom;
    RangeInBounds(p, b);
    LiveMember(p, Range(b.range.0, b.range.1), i);
  }

  /** No instruction with tiles is laid out in more than one range. */
  predicate LaidOnce(p: Program, blocks: seq<Block>, i: nat) {
    i < |p.instrs| && Schedulable(p.tg, p.instrs[i]) && Tiles(p.tg, p.instrs[i]) > 0 ==>
        Ranges(blocks, i, |blocks|) <= 1
  }

  lemma TaskExact(p: Program, n: pos, s: Schedule, owner: seq<nat>, blocks: seq<Block>, jobs: seq<Job>, t: nat)
    requires Built(p, n, s, owner, blocks, jobs) && Owned(owner, blocks) && t < |owner|
    ensures t < |s.tasks| && s.tasks[t].tileOp <= MAX_TILE_OP
    ensures TaskCovered(p.tg, s.tasks[t], AllSpans(s.laneStreams, t)) <==> LaidOnce(p, blocks, owner[t])
  {
    hide Built, TaskCovered, AllSpans, Ranges, Schedulable, Tiles, LvlInstrs, InRangeOf;
    TaskCoveredMeans(p, n, s, owner, blocks, jobs, t);
    var i := owner[t];
    RangesPositive(blocks, i, |blocks|);
    assert InSome(blocks, i);
    var b :| 0 <= b < |blocks| && i in LvlInstrs(blocks[b].lvls);
    BlockOfBuilt(p, n, s, owner, blocks, jobs, b);
    LiveInRange(p, n, s.laneStreams, owner, jobs, blocks[b], i);
    assert InRangeOf(blocks[b], i);
  }

  /** An instruction in two laid-out ranges has a task. */
  lemma TwiceHasTask(p: Program, n: pos, s: Schedule, owner: seq<nat>, blocks: seq<Block>, jobs: seq<Job>, i: nat)
    returns (t: nat)
    requires Built(p, n, s, owner, blocks, jobs) && !LaidOnce(p, blocks, i)
    ensures t < |owner| && owner[t] == i
  {
    hide Built, Schedulable, Tiles, Ranges, InRangeOf;
    RangesPositive(blocks, i, |blocks|);
    var b :| 0 <= b < |blocks| && InRangeOf(blocks[b], i);
    t := HasTask(p, n, s, owner, blocks, jobs, b, i);
  }

  /** The check accepts a built schedule exactly when no instruction with tiles lies in two of the
      ranges that were laid out. */
  lemma AcceptedWhenOnce(p: Program, n: pos, s: Schedule, owner: seq<nat>, blocks: seq<Block>, jobs: seq<Job>)
    requires Built(p, n, s, owner, blocks, jobs) && Owned(owner, blocks)
    ensures |s.tasks| < TASK_FOR && forall t | 0 <= t < |s.tasks| :: s.tasks[t].tileOp <= MAX_TILE_OP
    ensures AllCovered(p.tg, s.tasks, s.laneStreams) <==> forall i: nat :: LaidOnce(p, blocks, i)
  {
    hide Built, TaskCovered, AllSpans, Owned, LaidOnce;
    TasksFit(p, n, s, owner, blocks, jobs);
    forall t: nat | t < |owner|
      ensures TaskCovered(p.tg, s.tasks[t], AllSpans(s.laneStreams, t)) <==> LaidOnce(p, blocks, owner[t])
    {
      TaskExact(p, n, s, owner, blocks, jobs, t);
    }
    forall i: nat | !LaidOnce(p, blocks, i)
      ensures exists t: nat :: t < |owner| && owner[t] == i
    {
      var t := TwiceHasTask(p, n, s, owner, blocks, jobs, i);
    }
  }
}
