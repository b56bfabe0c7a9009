/** The planned timeline: lane streams replayed on the clock of the cost table, where a barrier
    brings every lane to the latest one; and how long a loop-free program takes on it. */
module Timeline {
  import opened Arith
  import opened Isa
  import opened Interleave
  import opened Streams
  import opened PhaseCut
  import opened Chains
  import opened Packing
  import opened OnePhase
  import opened PhaseUnits
  import opened Reference
  import opened Levels
  import opened Lpt
  import opened Layout
  import opened Scheduler

  /** `Refused`: control flow has no static duration. */
  datatype Makespan = Planned(time: real) | Refused

  function Duration(tg: Target, tasks: seq<Task>, e: Entry): real {
    if e.task == TASK_NOP || e.task >= |tasks| || e.tileHi < e.tileLo then 0.0
    else (e.tileHi - e.tileLo) as real * tg.unitCost(tasks[e.task].tileOp)
  }

  function Time(tg: Target, tasks: seq<Task>, es: seq<Entry>): real {
    if es == [] then 0.0 else Time(tg, tasks, es[..|es| - 1]) + Duration(tg, tasks, es[|es| - 1])
  }

  /** The entries up to the first barrier. */
  function Stretch(es: seq<Entry>): (r: seq<Entry>)
    ensures |r| <= |es| && r == es[..|r|]
    ensures forall x | 0 <= x < |r| :: r[x].task != TASK_BARRIER
    ensures |r| < |es| ==> es[|r|].task == TASK_BARRIER
  {
    if es == [] || es[0].task == TASK_BARRIER then [] else [es[0]] + Stretch(es[1..])
  }

  lemma {:induction false} StretchIs(es: seq<Entry>, k: nat)
    requires k <= |es| && (forall x | 0 <= x < k :: es[x].task != TASK_BARRIER)
    requires (k < |es| ==> es[k].task == TASK_BARRIER)
    ensures Stretch(es) == es[..k]
  {
    if k == 0 {
    } else {
      StretchIs(es[1..], k - 1);
    }
  }

  /** What is behind that barrier. */
  function Past(es: seq<Entry>): (r: seq<Entry>)
    ensures |r| <= |es| && (Stretch(es) != es ==> |r| < |es|)
  {
    var k := |Stretch(es)|;
    if k < |es| then es[k + 1..] else []
  }

  predicate Controlled(es: seq<Entry>) {
    exists x | 0 <= x < |es| :: es[x].IsControl()
  }

  function Latest(t: seq<real>): (r: real)
    requires t != []
    ensures r in t && forall x | 0 <= x < |t| :: t[x] <= r
  {
    if |t| == 1 then t[0]
    else
      var rest := Latest(t[..|t| - 1]);
      assert forall x | 0 <= x < |t| - 1 :: t[x] == t[..|t| - 1][x];
      if t[|t| - 1] > rest then t[|t| - 1] else rest
  }

  function Total(rest: seq<seq<Entry>>): nat {
    if rest == [] then 0 else Total(rest[..|rest| - 1]) + |rest[|rest| - 1]|
  }

  function Clocks(tg: Target, tasks: seq<Task>, rest: seq<seq<Entry>>, t: seq<real>): (r: seq<real>)
    requires |rest| == |t|
    ensures |r| == |t| && forall L | 0 <= L < |r| :: r[L] == t[L] + Time(tg, tasks, Stretch(rest[L]))
  {
    seq(|t|, L requires 0 <= L < |t| => t[L] + Time(tg, tasks, Stretch(rest[L])))
  }

  /** What is left of every lane behind its next barrier. */
  function Behind(rest: seq<seq<Entry>>): (r: seq<seq<Entry>>)
    ensures |r| == |rest| && forall L | 0 <= L < |r| :: r[L] == Past(rest[L])
  {
    seq(|rest|, L requires 0 <= L < |rest| => Past(rest[L]))
  }

  /** Every clock at the same time. */
  function Together(n: nat, time: real): (t: seq<real>)
    ensures |t| == n && forall L | 0 <= L < n :: t[L] == time
  {
    seq(n, L => time)
  }

  predicate AtEnd(rest: seq<seq<Entry>>) {
    forall L | 0 <= L < |rest| :: Stretch(rest[L]) == rest[L]
  }

  predicate Stuck(rest: seq<seq<Entry>>) {
    exists L | 0 <= L < |rest| :: Controlled(Stretch(rest[L]))
  }

  lemma {:induction false} BehindShorter(rest: seq<seq<Entry>>)
    ensures Total(Behind(rest)) <= Total(rest)
    ensures !AtEnd(rest) ==> Total(Behind(rest)) < Total(rest)
  {
    hide Past, Stretch;
    if rest == [] {
    } else {
      var k := |rest| - 1;
      BehindShorter(rest[..k]);
      assert Behind(rest)[..k] == Behind(rest[..k]);
      assert AtEnd(rest[..k]) && Stretch(rest[k]) == rest[k] ==> AtEnd(rest) by {
        assert forall L | 0 <= L < k :: rest[..k][L] == rest[L];
      }
    }
  }

  /** The replay, from barrier to barrier. */
  function Replay(tg: Target, tasks: seq<Task>, rest: seq<seq<Entry>>, t: seq<real>): Makespan
    requires |rest| == |t| > 0
    decreases Total(rest)
  {
    if Stuck(rest) then Refused
    else
      var now := Clocks(tg, tasks, rest, t);
      if AtEnd(rest) then Planned(Latest(now))
      else
        BehindShorter(rest);
        Replay(tg, tasks, Behind(rest), Together(|t|, Latest(now)))
  }

  // ----- the replay as it is performed ----------------------------------------------------------

  function Remaining(streams: seq<seq<Entry>>, root: seq<nat>, pos: seq<nat>): (rest: seq<seq<Entry>>)
    requires |streams| == |root| == |pos| && forall L | 0 <= L < |pos| :: pos[L] <= root[L] <= |streams[L]|
    ensures |rest| == |pos| && forall L | 0 <= L < |pos| :: rest[L] == streams[L][pos[L]..root[L]]
  {
    seq(|pos|, L requires 0 <= L < |pos| => streams[L][pos[L]..root[L]])
  }

  /** One lane, up to its next barrier or its end; not beyond a control entry. */
  method AdvanceClock(tg: Target, tasks: seq<Task>, stream: seq<Entry>, root: nat, pos0: nat, t0: real)
    returns (ok: bool, pos: nat, t: real)
    requires pos0 <= root <= |stream|
    ensures ok <==> !Controlled(Stretch(stream[pos0..root]))
    ensures ok ==> pos == pos0 + |Stretch(stream[pos0..root])| && t == t0 + Time(tg, tasks, Stretch(stream[pos0..root]))
  {
    var es := stream[pos0..root];
    pos, t := pos0, t0;
    while pos < root && stream[pos].task != TASK_BARRIER
      invariant pos0 <= pos <= root
      invariant forall x | 0 <= x < pos - pos0 :: es[x].task != TASK_BARRIER && !es[x].IsControl()
      invariant t == t0 + Time(tg, tasks, es[..pos - pos0])
    {
      var e := stream[pos];
      assert e == es[pos - pos0];
      if e.IsControl() {
        ControlAhead(es, pos - pos0);
        return false, pos, t;
      }
      assert es[..pos - pos0 + 1][..pos - pos0] == es[..pos - pos0];
      t := t + Duration(tg, tasks, e);
      pos := pos + 1;
    }
    assert pos < root ==> es[pos - pos0] == stream[pos];
    StretchIs(es, pos - pos0);
    ok := true;
  }

  lemma {:induction false} ControlAhead(es: seq<Entry>, k: nat)
    requires k < |es| && es[k].IsControl() && forall x | 0 <= x < k :: es[x].task != TASK_BARRIER
    ensures Controlled(Stretch(es))
  {
    if k == 0 {
      assert Stretch(es)[0] == es[0];
    } else {
      ControlAhead(es[1..], k - 1);
      var x :| 0 <= x < |Stretch(es[1..])| && Stretch(es[1..])[x].IsControl();
      assert Stretch(es)[x + 1] == Stretch(es[1..])[x];
    }
  }

  /** All lanes, up to their next barriers. */
  method AdvanceClocks(tg: Target, tasks: seq<Task>, streams: seq<seq<Entry>>, root: seq<nat>, pos0: seq<nat>,
                       t0: seq<real>)
    returns (ok: bool, pos: seq<nat>, t: seq<real>)
    requires |streams| == |root| == |pos0| == |t0| && forall L | 0 <= L < |pos0| :: pos0[L] <= root[L] <= |streams[L]|
    ensures ok <==> !Stuck(Remaining(streams, root, pos0))
    ensures ok ==> t == Clocks(tg, tasks, Remaining(streams, root, pos0), t0) && |pos| == |pos0|
    ensures ok ==> forall L | 0 <= L < |pos| :: pos[L] == pos0[L] + |Stretch(streams[L][pos0[L]..root[L]])|
  {
    pos, t := pos0, t0;
    var lane := 0;
    while lane < |pos0|
      invariant 0 <= lane <= |pos0| == |pos| == |t|
      invariant forall L | 0 <= L < |pos0| ::
          pos[L] == pos0[L] + if L < lane then |Stretch(streams[L][pos0[L]..root[L]])| else 0
      invariant forall L | 0 <= L < |pos0| ::
          t[L] == t0[L] + if L < lane then Time(tg, tasks, Stretch(streams[L][pos0[L]..root[L]])) else 0.0
      invariant forall L | 0 <= L < lane :: !Controlled(Stretch(streams[L][pos0[L]..root[L]]))
    {
      var good, p, x := AdvanceClock(tg, tasks, streams[lane], root[lane], pos[lane], t[lane]);
      if !good {
        assert Controlled(Stretch(Remaining(streams, root, pos0)[lane]));
        return false, pos, t;
      }
      pos, t := pos[lane := p], t[lane := x];
      lane := lane + 1;
    }
    ok := true;
  }

  method PlannedTimeline(tg: Target, tasks: seq<Task>, streams: seq<seq<Entry>>, root: seq<nat>) returns (r: Makespan)
    requires |streams| == |root| > 0 && forall L | 0 <= L < |root| :: root[L] <= |streams[L]|
    ensures r == Replay(tg, tasks, Remaining(streams, root, seq(|root|, L => 0)), Together(|root|, 0.0))
  {
    var pos, t := seq(|root|, L => 0), Together(|root|, 0.0);
    ghost var start := Replay(tg, tasks, Remaining(streams, root, pos), t);
    while true
      invariant |pos| == |t| == |root| && forall L | 0 <= L < |pos| :: pos[L] <= root[L] <= |streams[L]|
      invariant start == Replay(tg, tasks, Remaining(streams, root, pos), t)
      decreases Total(Remaining(streams, root, pos))
    {
      ghost var rest := Remaining(streams, root, pos);
      ghost var pos0, t0 := pos, t;
      var ok;
      ok, pos, t := AdvanceClocks(tg, tasks, streams, root, pos, t);
      if !ok {
        return Refused;
      }
      assert AtEnd(rest) <==> forall L | 0 <= L < |pos| :: pos[L] >= root[L] by {
        EndsMatch(streams, root, pos0, pos);
      }
      if forall L | 0 <= L < |pos| :: pos[L] >= root[L] {
        return Planned(Latest(t));
      }
      BehindShorter(rest);
      t := Together(|t|, Latest(t));
      pos := StepPast(root, pos);
      BehindIs(streams, root, pos0, pos);
    }
  }

  lemma EndsMatch(streams: seq<seq<Entry>>, root: seq<nat>, pos0: seq<nat>, pos: seq<nat>)
    requires |streams| == |root| == |pos0| == |pos| && forall L | 0 <= L < |pos0| :: pos0[L] <= root[L] <= |streams[L]|
    requires forall L | 0 <= L < |pos| :: pos[L] == pos0[L] + |Stretch(streams[L][pos0[L]..root[L]])|
    ensures AtEnd(Remaining(streams, root, pos0)) <==> forall L | 0 <= L < |pos| :: pos[L] >= root[L]
  {
    var rest := Remaining(streams, root, pos0);
    forall L | 0 <= L < |pos|
      ensures Stretch(rest[L]) == rest[L] <==> pos[L] >= root[L]
    {
      assert |rest[L]| == root[L] - pos0[L];
    }
  }

  /** Steps every lane that is not at its end past its barrier. */
  method StepPast(root: seq<nat>, pos0: seq<nat>) returns (pos: seq<nat>)
    requires |root| == |pos0|
    ensures |pos| == |pos0| && forall L | 0 <= L < |pos| :: pos[L] == if pos0[L] < root[L] then pos0[L] + 1 else pos0[L]
  {
    pos := pos0;
    var lane := 0;
    while lane < |pos|
      invariant 0 <= lane <= |pos| == |pos0|
      invariant forall L | 0 <= L < |pos| :: pos[L] == if L < lane && pos0[L] < root[L] then pos0[L] + 1 else pos0[L]
    {
      if pos[lane] < root[lane] {
        pos := pos[lane := pos[lane] + 1];
      }
      lane := lane + 1;
    }
  }

  lemma BehindIs(streams: seq<seq<Entry>>, root: seq<nat>, pos0: seq<nat>, pos: seq<nat>)
    requires |streams| == |root| == |pos0| == |pos| && forall L | 0 <= L < |pos0| :: pos0[L] <= root[L] <= |streams[L]|
    requires forall L | 0 <= L < |pos| ::
               var end := pos0[L] + |Stretch(streams[L][pos0[L]..root[L]])|;
               pos[L] == if end < root[L] then end + 1 else end
    ensures (forall L | 0 <= L < |pos| :: pos[L] <= root[L])
    ensures Remaining(streams, root, pos) == Behind(Remaining(streams, root, pos0))
  {
    var rest := Remaining(streams, root, pos0);
    forall L | 0 <= L < |pos|
      ensures pos[L] <= root[L] && streams[L][pos[L]..root[L]] == Behind(rest)[L]
    {
    }
    assert Remaining(streams, root, pos) == Behind(rest);
  }

  // ----- what a phase takes ---------------------------------------------------------------------

  lemma {:induction false} TimeConcat(tg: Target, tasks: seq<Task>, a: seq<Entry>, b: seq<Entry>)
    ensures Time(tg, tasks, a + b) == Time(tg, tasks, a) + Time(tg, tasks, b)
  {
    if b == [] {
      assert a + b == a;
    } else {
      var k := |b| - 1;
      assert (a + b)[..|a + b| - 1] == a + b[..k];
      TimeConcat(tg, tasks, a, b[..k]);
    }
  }

  /** The price of `tiles` tiles of each of `count` tasks. */
  function Price(count: nat, tiles: nat, unit: real): real {
    count as real * tiles as real * unit
  }

  function Share(cost: real, width: nat, tiles: pos): real {
    cost * width as real / tiles as real
  }

  /** The tasks of a unit are all of one tile operation, which prices the unit. */
  predicate Priced(tg: Target, tasks: seq<Task>, u: Unit, op: nat) {
    && (forall x | 0 <= x < |u.tids| :: u.tids[x] < |tasks| && u.tids[x] < TASK_FOR && tasks[u.tids[x]].tileOp == op)
    && u.cost == Price(|u.tids|, u.tiles, tg.unitCost(op))
  }

  ghost predicate HasPrice(tg: Target, tasks: seq<Task>, u: Unit) {
    exists op :: Priced(tg, tasks, u, op)
  }

  ghost predicate AllPriced(tg: Target, tasks: seq<Task>, units: seq<Unit>) {
    forall x | 0 <= x < |units| :: HasPrice(tg, tasks, units[x])
  }

  predicate ShareOf(units: seq<Unit>, c: Chunk) {
    && c.uid < |units| && c.lo <= c.hi <= units[c.uid].tiles && units[c.uid].tiles > 0 && c.tids == units[c.uid].tids
    && c.cost == Share(units[c.uid].cost, c.hi - c.lo, units[c.uid].tiles)
  }

  predicate AllShares(units: seq<Unit>, chunks: seq<Chunk>) {
    forall x | 0 <= x < |chunks| :: ShareOf(units, chunks[x])
  }

  lemma CutBelow(tiles: nat, j: nat, k: pos)
    requires j <= k
    ensures Cut(tiles, j, k) <= tiles
  {
    MulMonotone(j, k, tiles);
    DivMonotone(tiles * j, tiles * k, k);
    DivMultiple(tiles, k);
  }

  lemma PartIsShare(units: seq<Unit>, uid: nat, j: nat, k: pos)
    requires uid < |units| && j < k && units[uid].tiles > 0
    ensures ShareOf(units, PartOf(uid, units[uid], j, k))
  {
    CutMonotone(units[uid].tiles, j, k);
    CutBelow(units[uid].tiles, j + 1, k);
    hide Cut;
  }

  lemma {:induction false} PartShares(units: seq<Unit>, uid: nat, j: nat, k: nat)
    requires uid < |units| && j <= k && (k > 0 ==> units[uid].tiles > 0)
    ensures AllShares(units, PartsFrom(uid, units[uid], j, k))
    decreases k - j
  {
    hide ShareOf, PartOf;
    if j >= k {
    } else {
      PartIsShare(units, uid, j, k);
      PartShares(units, uid, j + 1, k);
      SharesCons(units, PartOf(uid, units[uid], j, k), PartsFrom(uid, units[uid], j + 1, k));
    }
  }

  lemma SharesCons(units: seq<Unit>, c: Chunk, rest: seq<Chunk>)
    requires ShareOf(units, c) && AllShares(units, rest)
    ensures AllShares(units, [c] + rest)
  {
    hide ShareOf;
  }

  lemma SharesConcat(units: seq<Unit>, a: seq<Chunk>, b: seq<Chunk>)
    requires AllShares(units, a) && AllShares(units, b)
    ensures AllShares(units, a + b)
  {
    hide ShareOf;
  }

  lemma {:induction false} AllPartShares(units: seq<Unit>, start: nat, n: nat, total: real)
    requires start <= |units| && total != 0.0
    ensures AllShares(units, PartsOfAll(units, start, n, total))
    decreases |units| - start
  {
    if start >= |units| {
    } else {
      var k := Fanout(units[start], n, total);
      PartShares(units, start, 0, k);
      AllPartShares(units, start + 1, n, total);
      SharesConcat(units, UnitParts(start, units[start], n, total), PartsOfAll(units, start + 1, n, total));
    }
  }

  lemma SortedShares(units: seq<Unit>, n: nat)
    ensures AllShares(units, SortedChunks(units, n))
  {
    hide ShareOf;
    var parts, chunks := PartsOfAll(units, 0, n, Divisor(units)), SortedChunks(units, n);
    AllPartShares(units, 0, n, Divisor(units));
    forall x | 0 <= x < |chunks|
      ensures ShareOf(units, chunks[x])
    {
      assert chunks[x] in multiset(chunks);
      var z :| 0 <= z < |parts| && parts[z] == chunks[x];
    }
  }

  lemma {:induction false} ChunkDuration(tg: Target, tasks: seq<Task>, tids: seq<nat>, lo: nat, hi: nat, op: nat)
    requires lo <= hi
    requires forall x | 0 <= x < |tids| :: tids[x] < |tasks| && tids[x] < TASK_FOR && tasks[tids[x]].tileOp == op
    ensures Time(tg, tasks, ChunkEntries(tids, lo, hi)) == Price(|tids|, hi - lo, tg.unitCost(op))
  {
    if tids == [] {
    } else {
      var k := |tids| - 1;
      assert ChunkEntries(tids, lo, hi)[..k] == ChunkEntries(tids[..k], lo, hi);
      ChunkDuration(tg, tasks, tids[..k], lo, hi, op);
      PriceOneMore(k, hi - lo, tg.unitCost(op));
      hide Price;
    }
  }

  lemma PriceOneMore(k: nat, tiles: nat, unit: real)
    ensures Price(k + 1, tiles, unit) == Price(k, tiles, unit) + tiles as real * unit
  {
    assert (k + 1) as real * tiles as real == k as real * tiles as real + tiles as real;
  }

  lemma ShareOfPrice(count: nat, width: nat, tiles: pos, unit: real)
    ensures Share(Price(count, tiles, unit), width, tiles) == Price(count, width, unit)
  {
    assert Price(count, tiles, unit) * width as real == Price(count, width, unit) * tiles as real;
  }

  /** A placed chunk lasts as long as it was priced. */
  lemma ChunkTakesCost(tg: Target, tasks: seq<Task>, units: seq<Unit>, c: Chunk)
    requires AllPriced(tg, tasks, units) && ShareOf(units, c)
    ensures Time(tg, tasks, ChunkEntries(c.tids, c.lo, c.hi)) == c.cost
  {
    hide Price, Share;
    var u := units[c.uid];
    assert HasPrice(tg, tasks, u);
    var op :| Priced(tg, tasks, u, op);
    ChunkDuration(tg, tasks, c.tids, c.lo, c.hi, op);
    ShareOfPrice(|u.tids|, c.hi - c.lo, u.tiles, tg.unitCost(op));
  }

  lemma {:induction false} LaneTakesLoad(tg: Target, tasks: seq<Task>, units: seq<Unit>, chunks: seq<Chunk>,
                                         place: seq<nat>, lane: nat)
    requires AllPriced(tg, tasks, units) && AllShares(units, chunks) && |place| == |chunks|
    ensures Time(tg, tasks, LaneEntries(chunks, place, lane)) == Load(Costs(chunks), place, lane)
  {
    hide ShareOf, AllPriced;
    if chunks == [] {
    } else {
      var k := |chunks| - 1;
      LaneTakesLoad(tg, tasks, units, chunks[..k], place[..k], lane);
      assert Costs(chunks)[..k] == Costs(chunks[..k]);
      var more := if place[k] == lane then ChunkEntries(chunks[k].tids, chunks[k].lo, chunks[k].hi) else [];
      TimeConcat(tg, tasks, LaneEntries(chunks[..k], place[..k], lane), more);
      ChunkTakesCost(tg, tasks, units, chunks[k]);
    }
  }

  /** The loads that list scheduling puts on the lanes of one phase. */
  function PhaseLoads(units: seq<Unit>, n: pos): (loads: seq<real>)
    ensures |loads| == n
  {
    var chunks := SortedChunks(units, n);
    Loads(Costs(chunks), Place(Costs(chunks), n), n)
  }

  lemma PhaseTakesLoads(tg: Target, tasks: seq<Task>, units: seq<Unit>, n: pos, lane: nat)
    requires AllPriced(tg, tasks, units) && lane < n
    ensures Time(tg, tasks, Packed(units, n)[lane]) == PhaseLoads(units, n)[lane]
  {
    var chunks := SortedChunks(units, n);
    SortedShares(units, n);
    LaneTakesLoad(tg, tasks, units, chunks, Place(Costs(chunks), n), lane);
  }

  lemma PhasePriced(p: Program, owner: seq<nat>, tasks: seq<Task>, part: seq<nat>, units: seq<Unit>)
    requires CleanPhase(p, part) && UnitsFor(p, owner, part, units) && |owner| == |tasks| && |owner| < TASK_FOR
    requires forall t | 0 <= t < |owner| :: owner[t] < |p.instrs| && tasks[t] == TaskOf(p.tg, p.instrs[owner[t]])
    ensures AllPriced(p.tg, tasks, units)
  {
    var comps :| AreChains(p, Pick(p, part, true), comps)
      && UnitsForChains(p, owner, Singles(Pick(p, part, false)) + comps, units);
    var chains := Singles(Pick(p, part, false)) + comps;
    hide AreChains, UnitsFor, CleanPhase, UnitFor, HasPrice, TaskOf;
    forall x | 0 <= x < |units|
      ensures HasPrice(p.tg, tasks, units[x])
    {
      assert GoodChain(p, chains[x]) && UnitFor(p, owner, chains[x], units[x]);
      OneOperation(p, part, comps, x);
      UnitPriced(p, owner, tasks, chains[x], units[x]);
    }
  }

  lemma UnitPriced(p: Program, owner: seq<nat>, tasks: seq<Task>, chain: seq<nat>, u: Unit)
    requires GoodChain(p, chain) && UnitFor(p, owner, chain, u) && |owner| == |tasks| && |owner| < TASK_FOR
    requires forall t | 0 <= t < |owner| :: owner[t] < |p.instrs| && tasks[t] == TaskOf(p.tg, p.instrs[owner[t]])
    requires forall y | 0 <= y < |chain| ::
        TaskOf(p.tg, p.instrs[chain[y]]).tileOp == TaskOf(p.tg, p.instrs[chain[0]]).tileOp
    ensures HasPrice(p.tg, tasks, u)
  {
    hide TaskOf, Tiles;
    var op := TaskOf(p.tg, p.instrs[chain[0]]).tileOp;
    UnitTasks(p, owner, tasks, chain, u, op);
    assert Priced(p.tg, tasks, u, op);
  }

  lemma UnitTasks(p: Program, owner: seq<nat>, tasks: seq<Task>, chain: seq<nat>, u: Unit, op: nat)
    requires GoodChain(p, chain) && UnitFor(p, owner, chain, u) && |owner| == |tasks|
    requires forall t | 0 <= t < |owner| :: owner[t] < |p.instrs| && tasks[t] == TaskOf(p.tg, p.instrs[owner[t]])
    requires forall y | 0 <= y < |chain| :: TaskOf(p.tg, p.instrs[chain[y]]).tileOp == op
    ensures forall y | 0 <= y < |u.tids| :: u.tids[y] < |tasks| && tasks[u.tids[y]].tileOp == op
  {
    hide TaskOf, Tiles;
    forall y | 0 <= y < |u.tids|
      ensures u.tids[y] < |tasks| && tasks[u.tids[y]].tileOp == op
    {
      assert owner[u.tids[y]] == chain[y];
    }
  }

  lemma PickedMap(p: Program, part: seq<nat>, i: nat)
    requires InRange(p, part) && i in Pick(p, part, true)
    ensures i < |p.instrs| && TaskOf(p.tg, p.instrs[i]).tileOp == TILE_EW
  {
  }

  /** A chain is one operation, or elementwise throughout. */
  lemma OneOperation(p: Program, part: seq<nat>, comps: seq<seq<nat>>, c: nat)
    requires CleanPhase(p, part) && AreChains(p, Pick(p, part, true), comps)
    requires c < |Pick(p, part, false)| + |comps| && GoodChain(p, (Singles(Pick(p, part, false)) + comps)[c])
    ensures var chain := (Singles(Pick(p, part, false)) + comps)[c];
            forall y | 0 <= y < |chain| ::
                TaskOf(p.tg, p.instrs[chain[y]]).tileOp == TaskOf(p.tg, p.instrs[chain[0]]).tileOp
  {
    hide CleanPhase, AreChains, GoodChain;
    CleanInRange(p, part);
    var shaped := Pick(p, part, false);
    if c >= |shaped| {
      ComponentMembers(p, part, comps, c - |shaped|);
      var chain := comps[c - |shaped|];
      forall y | 0 <= y < |chain|
        ensures chain[y] < |p.instrs| && TaskOf(p.tg, p.instrs[chain[y]]).tileOp == TILE_EW
      {
        PickedMap(p, part, chain[y]);
      }
    }
  }

  // ----- a loop-free program ---------------------------------------------------------------------

  /** The largest lane load of every phase, added up. */
  function PhasesTake(lvls: seq<Lvl>, n: pos): real
    requires forall x | 0 <= x < |lvls| :: lvls[x].Work?
  {
    if lvls == [] then 0.0 else Latest(PhaseLoads(lvls[0].units, n)) + PhasesTake(lvls[1..], n)
  }

  predicate LoopFree(b: Block) {
    forall x | 0 <= x < |b.lvls| :: b.lvls[x].Work?
  }

  lemma RestBounds(p: Program, n: pos, lanes: seq<seq<Entry>>, owner: seq<nat>, jobs: seq<Job>, b: Block, k: nat)
    requires BlockOk(p, n, lanes, owner, jobs, b) && k <= |b.lvls|
    ensures forall L | 0 <= L < n :: b.at[k][L] <= b.at[|b.lvls|][L] <= |lanes[L]|
  {
    forall L | 0 <= L < n
      ensures b.at[k][L] <= b.at[|b.lvls|][L] <= |lanes[L]|
    {
      RowsAscend(p, n, lanes, owner, jobs, b, |b.lvls|, k, L);
    }
  }

  lemma LevelEntries(p: Program, n: pos, lanes: seq<seq<Entry>>, owner: seq<nat>, jobs: seq<Job>, b: Block, k: nat,
                     L: nat)
    requires BlockOk(p, n, lanes, owner, jobs, b) && k < |b.lvls| && b.lvls[k].Work? && L < n && |owner| < TASK_FOR
    ensures |lanes| == n && Shaped(n, b)
    ensures b.at[k][L] <= b.at[k + 1][L] <= b.at[|b.lvls|][L] <= |lanes[L]|
    ensures lanes[L][b.at[k][L]..b.at[k + 1][L]] == Packed(b.lvls[k].units, n)[L] + Closing(k, |b.lvls|)
    ensures EntriesOk(owner, Packed(b.lvls[k].units, n)[L])
  {
    hide Packed, Closing, LevelsFrom, CleanPhase, UnitsFor;
    RowsAscend(p, n, lanes, owner, jobs, b, |b.lvls|, k + 1, L);
    assert RowAt(n, lanes, jobs, b, |b.lvls|, k, L) && LvlAt(p, owner, jobs, b, k);
    hide Nested, LevelsFrom, Packed, CleanPhase, UnitsFor;
    UnitsForTids(p, owner, b.lvls[k].part, b.lvls[k].units);
    PackedIsOk(owner, b.lvls[k].units, n);
  }

  /** One lane at a level of compute: its entries, then a barrier unless the level is last. */
  lemma LevelLane(p: Program, n: pos, lanes: seq<seq<Entry>>, owner: seq<nat>, jobs: seq<Job>, b: Block, k: nat, L: nat)
    requires BlockOk(p, n, lanes, owner, jobs, b) && k < |b.lvls| && b.lvls[k].Work? && L < n && |owner| < TASK_FOR
    ensures b.at[k][L] <= b.at[k + 1][L] <= b.at[|b.lvls|][L] <= |lanes[L]|
    ensures var body, rest := Packed(b.lvls[k].units, n)[L], lanes[L][b.at[k][L]..b.at[|b.lvls|][L]];
            && Stretch(rest) == body && !Controlled(body)
            && (k + 1 == |b.lvls| ==> rest == body)
            && (k + 1 < |b.lvls| ==>
              |body| < |rest| && rest[|body| + 1..] == lanes[L][b.at[k + 1][L]..b.at[|b.lvls|][L]])
  {
    hide BlockOk, Packed, Stretch;
    LevelEntries(p, n, lanes, owner, jobs, b, k, L);
    var body, stream := Packed(b.lvls[k].units, n)[L], lanes[L];
    var lo, mid, hi := b.at[k][L], b.at[k + 1][L], b.at[|b.lvls|][L];
    LaneShape(stream, lo, mid, hi, body, Closing(k, |b.lvls|));
    forall x | 0 <= x < |body|
      ensures body[x].task < TASK_FOR && stream[lo..hi][x] == body[x]
    {
      assert body[x] in body && stream[lo..hi][..|body|][x] == body[x];
    }
    StretchIs(stream[lo..hi], |body|);
  }

  lemma LaneShape(stream: seq<Entry>, lo: nat, mid: nat, hi: nat, body: seq<Entry>, closing: seq<Entry>)
    requires lo <= mid <= hi <= |stream| && stream[lo..mid] == body + closing
    ensures var rest := stream[lo..hi];
            |body| + |closing| <= |rest| && rest[..|body|] == body && rest[|body| + |closing|..] == stream[mid..hi]
            && rest[|body|..|body| + |closing|] == closing
  {
    assert stream[lo..hi] == stream[lo..mid] + stream[mid..hi];
  }

  lemma LatestShift(loads: seq<real>, now: seq<real>, start: real)
    requires |loads| == |now| > 0 && forall L | 0 <= L < |now| :: now[L] == start + loads[L]
    ensures Latest(now) == start + Latest(loads)
  {
    var x :| 0 <= x < |now| && now[x] == Latest(now);
    var y :| 0 <= y < |loads| && loads[y] == Latest(loads);
    assert now[y] <= Latest(now) && loads[x] <= Latest(loads);
  }

  /** What the built schedule says about its root. */
  ghost predicate Rooted(p: Program, n: pos, s: Schedule, owner: seq<nat>, jobs: seq<Job>, b: Block) {
    && BlockOk(p, n, s.laneStreams, owner, jobs, b) && |owner| == |s.tasks| && |owner| < TASK_FOR
    && forall t | 0 <= t < |owner| :: owner[t] < |p.instrs| && s.tasks[t] == TaskOf(p.tg, p.instrs[owner[t]])
  }

  lemma RootedRest(p: Program, n: pos, s: Schedule, owner: seq<nat>, jobs: seq<Job>, b: Block, k: nat)
    requires Rooted(p, n, s, owner, jobs, b) && k <= |b.lvls|
    ensures |s.laneStreams| == n && Shaped(n, b)
    ensures forall L | 0 <= L < n :: b.at[k][L] <= b.at[|b.lvls|][L] <= |s.laneStreams[L]|
  {
    RestBounds(p, n, s.laneStreams, owner, jobs, b, k);
  }

  /** `rest` is what remains of the lanes from level `k` on. */
  predicate RestsAt(s: Schedule, n: nat, b: Block, k: nat, rest: seq<seq<Entry>>) {
    && |rest| == n == |s.laneStreams| && Shaped(n, b) && k <= |b.lvls|
    && forall L | 0 <= L < n ::
         && b.at[k][L] <= b.at[|b.lvls|][L] <= |s.laneStreams[L]|
         && rest[L] == s.laneStreams[L][b.at[k][L]..b.at[|b.lvls|][L]]
  }

  lemma RootedLanes(p: Program, n: pos, s: Schedule, owner: seq<nat>, jobs: seq<Job>, b: Block)
    requires Rooted(p, n, s, owner, jobs, b)
    ensures BlockOk(p, n, s.laneStreams, owner, jobs, b) && |owner| < TASK_FOR
  {
  }

  /** One lane over a level of compute: it stretches over the level's entries, to the end of the
      lane when the level is the last, and otherwise to the start of the next one. */
  predicate LaneStretches(s: Schedule, n: pos, b: Block, k: nat, rest: seq<seq<Entry>>, L: nat)
    requires k < |b.lvls| && b.lvls[k].Work? && |rest| == n == |s.laneStreams| && Shaped(n, b) && L < n
  {
    && Stretch(rest[L]) == Packed(b.lvls[k].units, n)[L] && !Controlled(Stretch(rest[L]))
    && (Stretch(rest[L]) == rest[L] <==> k + 1 == |b.lvls|)
    && b.at[k + 1][L] <= b.at[|b.lvls|][L] <= |s.laneStreams[L]|
    && (k + 1 < |b.lvls| ==> Past(rest[L]) == s.laneStreams[L][b.at[k + 1][L]..b.at[|b.lvls|][L]])
  }

  lemma StretchOfLane(p: Program, n: pos, s: Schedule, owner: seq<nat>, jobs: seq<Job>, b: Block, k: nat,
                      rest: seq<seq<Entry>>, L: nat)
    requires Rooted(p, n, s, owner, jobs, b) && k < |b.lvls| && b.lvls[k].Work? && RestsAt(s, n, b, k, rest) && L < n
    ensures |rest| == n == |s.laneStreams| && Shaped(n, b) && LaneStretches(s, n, b, k, rest, L)
  {
    hide Stretch, Nested, RowsOk, Placed, SortedChunks, EwTask;
    RootedLanes(p, n, s, owner, jobs, b);
    hide Rooted, Packed, BlockOk, Stretch, Controlled;
    LevelLane(p, n, s.laneStreams, owner, jobs, b, k, L);
  }

  lemma LevelStretch(p: Program, n: pos, s: Schedule, owner: seq<nat>, jobs: seq<Job>, b: Block, k: nat,
                     rest: seq<seq<Entry>>)
    requires Rooted(p, n, s, owner, jobs, b) && k < |b.lvls| && b.lvls[k].Work? && RestsAt(s, n, b, k, rest)
    ensures |rest| == n == |s.laneStreams| && Shaped(n, b)
    ensures forall L | 0 <= L < n :: LaneStretches(s, n, b, k, rest, L)
  {
    RestSize(s, n, b, k, rest);
    hide Rooted, RestsAt, LaneStretches;
    forall L | 0 <= L < n
      ensures LaneStretches(s, n, b, k, rest, L)
    {
      StretchOfLane(p, n, s, owner, jobs, b, k, rest, L);
    }
  }

  lemma LanesStretch(s: Schedule, n: pos, b: Block, k: nat, rest: seq<seq<Entry>>)
    requires k < |b.lvls| && b.lvls[k].Work? && |rest| == n == |s.laneStreams| && Shaped(n, b)
    requires forall L | 0 <= L < n :: LaneStretches(s, n, b, k, rest, L)
    ensures !Stuck(rest) && (AtEnd(rest) <==> k + 1 == |b.lvls|)
    ensures (k + 1 < |b.lvls| ==> RestsAt(s, n, b, k + 1, Behind(rest)))
    ensures forall L | 0 <= L < n :: Stretch(rest[L]) == Packed(b.lvls[k].units, n)[L]
  {
    hide Packed, Stretch, Past, Controlled;
    assert LaneStretches(s, n, b, k, rest, 0);
    forall L | 0 <= L < n
      ensures Stretch(rest[L]) == Packed(b.lvls[k].units, n)[L] && !Controlled(Stretch(rest[L]))
      ensures Stretch(rest[L]) == rest[L] <==> k + 1 == |b.lvls|
      ensures b.at[k + 1][L] <= b.at[|b.lvls|][L] <= |s.laneStreams[L]|
      ensures k + 1 < |b.lvls| ==> Behind(rest)[L] == s.laneStreams[L][b.at[k + 1][L]..b.at[|b.lvls|][L]]
    {
      assert LaneStretches(s, n, b, k, rest, L);
    }
    hide LaneStretches;
  }

  /** Every lane arrives at the next barrier with its load on the clock. */
  lemma LevelClocks(p: Program, n: pos, s: Schedule, owner: seq<nat>, jobs: seq<Job>, b: Block, k: nat,
                    rest: seq<seq<Entry>>, start: real)
    requires Rooted(p, n, s, owner, jobs, b) && k < |b.lvls| && b.lvls[k].Work? && RestsAt(s, n, b, k, rest)
    requires forall L | 0 <= L < n :: Stretch(rest[L]) == Packed(b.lvls[k].units, n)[L]
    ensures Latest(Clocks(p.tg, s.tasks, rest, Together(n, start))) == start + Latest(PhaseLoads(b.lvls[k].units, n))
  {
    assert AllPriced(p.tg, s.tasks, b.lvls[k].units) by {
      assert LvlAt(p, owner, jobs, b, k);
      PhasePriced(p, owner, s.tasks, b.lvls[k].part, b.lvls[k].units);
    }
    hide Rooted, RestsAt, Packed, PhaseLoads, AllPriced;
    var now := Clocks(p.tg, s.tasks, rest, Together(n, start));
    forall L | 0 <= L < n
      ensures now[L] == start + PhaseLoads(b.lvls[k].units, n)[L]
    {
      PhaseTakesLoads(p.tg, s.tasks, b.lvls[k].units, n, L);
    }
    LatestShift(PhaseLoads(b.lvls[k].units, n), now, start);
  }

  lemma ReplayUnfolds(tg: Target, tasks: seq<Task>, rest: seq<seq<Entry>>, t: seq<real>)
    requires |rest| == |t| > 0 && !Stuck(rest)
    ensures var latest := Latest(Clocks(tg, tasks, rest, t));
            Replay(tg, tasks, rest, t)
                == if AtEnd(rest) then Planned(latest) else Replay(tg, tasks, Behind(rest), Together(|t|, latest))
  {
    hide Stuck, AtEnd, Clocks, Latest, Together;
  }

  /** One turn of the replay. */
  lemma ReplayTurn(p: Program, n: pos, s: Schedule, owner: seq<nat>, jobs: seq<Job>, b: Block, k: nat,
                   rest: seq<seq<Entry>>, start: real)
    requires Rooted(p, n, s, owner, jobs, b) && k < |b.lvls| && b.lvls[k].Work? && RestsAt(s, n, b, k, rest)
    ensures |Behind(rest)| == |rest| == n && (k + 1 < |b.lvls| ==> RestsAt(s, n, b, k + 1, Behind(rest)))
    ensures var next := start + Latest(PhaseLoads(b.lvls[k].units, n));
            Replay(p.tg, s.tasks, rest, Together(n, start))
              == if k + 1 == |b.lvls| then Planned(next) else Replay(p.tg, s.tasks, Behind(rest), Together(n, next))
  {
    hide Rooted, RestsAt, PhaseLoads, AtEnd, Stuck, Stretch, Clocks, Latest, Replay, Together, Packed, Behind, Past;
    RestSize(s, n, b, k, rest);
    LevelStretch(p, n, s, owner, jobs, b, k, rest);
    LanesStretch(s, n, b, k, rest);
    LevelClocks(p, n, s, owner, jobs, b, k, rest, start);
    var t := Together(n, start);
    assert |t| == n;
    ReplayUnfolds(p.tg, s.tasks, rest, t);
    var latest, next := Latest(Clocks(p.tg, s.tasks, rest, t)), start + Latest(PhaseLoads(b.lvls[k].units, n));
    assert latest == next;
    assert Together(|t|, latest) == Together(n, next);
  }

  lemma EmptyReplay(tg: Target, tasks: seq<Task>, n: pos, rest: seq<seq<Entry>>, start: real)
    requires |rest| == n && forall L | 0 <= L < n :: rest[L] == []
    ensures Replay(tg, tasks, rest, Together(n, start)) == Planned(start)
  {
    var now := Clocks(tg, tasks, rest, Together(n, start));
    LatestShift(Together(n, 0.0), now, start);
  }

  lemma {:induction false} ReplayFrom(p: Program, n: pos, s: Schedule, owner: seq<nat>, jobs: seq<Job>, b: Block,
                                      k: nat, rest: seq<seq<Entry>>, start: real)
    requires Rooted(p, n, s, owner, jobs, b) && LoopFree(b) && RestsAt(s, n, b, k, rest)
    ensures Replay(p.tg, s.tasks, rest, Together(n, start)) == Planned(start + PhasesTake(b.lvls[k..], n))
    decreases |b.lvls| - k
  {
    hide Rooted, Replay, PhaseLoads, Behind, Past, PhasesTake, Together, Latest, Stretch;
    RestSize(s, n, b, k, rest);
    if k == |b.lvls| {
      EmptyReplay(p.tg, s.tasks, n, rest, start);
      assert b.lvls[k..] == [];
      NothingTakes(n);
    } else {
      hide RestsAt;
      TakeFirst(b.lvls, k, n);
      ReplayTurn(p, n, s, owner, jobs, b, k, rest, start);
      if k + 1 < |b.lvls| {
        ReplayFrom(p, n, s, owner, jobs, b, k + 1, Behind(rest), start + Latest(PhaseLoads(b.lvls[k].units, n)));
      } else {
        assert b.lvls[k + 1..] == [];
        NothingTakes(n);
      }
    }
  }

  lemma NothingTakes(n: pos)
    ensures PhasesTake([], n) == 0.0
  {
  }

  lemma RestSize(s: Schedule, n: nat, b: Block, k: nat, rest: seq<seq<Entry>>)
    requires RestsAt(s, n, b, k, rest)
    ensures k <= |b.lvls| && |rest| == n == |s.laneStreams| && Shaped(n, b)
  {
  }

  lemma TakeFirst(lvls: seq<Lvl>, k: nat, n: pos)
    requires k < |lvls| && forall x | 0 <= x < |lvls| :: lvls[x].Work?
    ensures PhasesTake(lvls[k..], n) == Latest(PhaseLoads(lvls[k].units, n)) + PhasesTake(lvls[k + 1..], n)
  {
    assert lvls[k..][1..] == lvls[k + 1..];
  }

  lemma CtrlStuck(p: Program, n: pos, s: Schedule, owner: seq<nat>, jobs: seq<Job>, b: Block, k: nat,
                  rest: seq<seq<Entry>>)
    requires Rooted(p, n, s, owner, jobs, b) && k < |b.lvls| && b.lvls[k].Ctrl? && RestsAt(s, n, b, k, rest)
    ensures Stuck(rest)
  {
    hide Rooted, RestsAt, Stretch, Controlled;
    CtrlFirst(p, n, s, owner, jobs, b, k, rest);
    ControlAhead(rest[0], 0);
  }

  lemma CtrlFirst(p: Program, n: pos, s: Schedule, owner: seq<nat>, jobs: seq<Job>, b: Block, k: nat,
                  rest: seq<seq<Entry>>)
    requires Rooted(p, n, s, owner, jobs, b) && k < |b.lvls| && b.lvls[k].Ctrl? && RestsAt(s, n, b, k, rest)
    ensures |rest| == n && rest[0] != [] && rest[0][0].IsControl()
  {
    hide BlockOk;
    RootedLanes(p, n, s, owner, jobs, b);
    CtrlPlace(p, n, s.laneStreams, owner, jobs, b, k);
    assert rest[0][0] == s.laneStreams[0][b.at[k][0]];
  }

  lemma CtrlPlace(p: Program, n: pos, lanes: seq<seq<Entry>>, owner: seq<nat>, jobs: seq<Job>, b: Block, k: nat)
    requires BlockOk(p, n, lanes, owner, jobs, b) && k < |b.lvls| && b.lvls[k].Ctrl?
    ensures |lanes| == n && Shaped(n, b) && b.at[k][0] < b.at[|b.lvls|][0] <= |lanes[0]|
    ensures lanes[0][b.at[k][0]].IsControl()
  {
    hide LvlAt, Nested, LevelsFrom, Live;
    RowsAscend(p, n, lanes, owner, jobs, b, |b.lvls|, k + 1, 0);
    assert RowAt(n, lanes, jobs, b, |b.lvls|, k, 0);
  }

  lemma {:induction false} ReplayRefuses(p: Program, n: pos, s: Schedule, owner: seq<nat>, jobs: seq<Job>, b: Block,
                                         k: nat, x: nat, rest: seq<seq<Entry>>, start: real)
    requires Rooted(p, n, s, owner, jobs, b) && k <= x < |b.lvls| && b.lvls[x].Ctrl? && RestsAt(s, n, b, k, rest)
    ensures |rest| == n && Replay(p.tg, s.tasks, rest, Together(n, start)) == Refused
    decreases x - k
  {
    hide Rooted, RestsAt, PhaseLoads, Behind, Past, Together, Latest, Stuck, Stretch, Clocks, AtEnd;
    RestSize(s, n, b, k, rest);
    if b.lvls[k].Ctrl? {
      CtrlStuck(p, n, s, owner, jobs, b, k, rest);
    } else {
      hide Replay;
      ReplayTurn(p, n, s, owner, jobs, b, k, rest, start);
      ReplayRefuses(p, n, s, owner, jobs, b, k + 1, x, Behind(rest), start + Latest(PhaseLoads(b.lvls[k].units, n)));
    }
  }

  predicate HasRegion(p: Program) {
    exists i: nat | i < p.mainLen :: i < |p.instrs| && p.instrs[i].IsRegion()
  }

  /** The planned makespan of a built schedule is the sum over its phases of the largest lane
      load; a root with control flow, and only such a root, is refused. */
  lemma MakespanIsLoads(p: Program, n: pos, s: Schedule, owner: seq<nat>, blocks: seq<Block>, jobs: seq<Job>)
    requires Built(p, n, s, owner, blocks, jobs)
    ensures |s.laneStreams| == |s.rootLens| == n && forall L | 0 <= L < n :: s.rootLens[L] <= |s.laneStreams[L]|
    ensures var r := Replay(p.tg, s.tasks, Remaining(s.laneStreams, s.rootLens, seq(n, L => 0)), Together(n, 0.0));
            if HasRegion(p) then r == Refused else LoopFree(blocks[0]) && r == Planned(PhasesTake(blocks[0].lvls, n))
  {
    hide Built, Rooted, Replay, RestsAt, HasRegion, PhasesTake;
    BuiltRoot(p, n, s, owner, blocks, jobs);
    var b := blocks[0];
    var rest := Remaining(s.laneStreams, s.rootLens, seq(n, L => 0));
    if x :| 0 <= x < |b.lvls| && b.lvls[x].Ctrl? {
      ReplayRefuses(p, n, s, owner, jobs, b, 0, x, rest, 0.0);
    } else {
      assert b.lvls[0..] == b.lvls;
      ReplayFrom(p, n, s, owner, jobs, b, 0, rest, 0.0);
    }
  }

  lemma BuiltRoot(p: Program, n: pos, s: Schedule, owner: seq<nat>, blocks: seq<Block>, jobs: seq<Job>)
    requires Built(p, n, s, owner, blocks, jobs)
    ensures blocks != [] && Rooted(p, n, s, owner, jobs, blocks[0])
    ensures |s.laneStreams| == |s.rootLens| == n && forall L | 0 <= L < n :: s.rootLens[L] <= |s.laneStreams[L]|
    ensures RestsAt(s, n, blocks[0], 0, Remaining(s.laneStreams, s.rootLens, seq(n, L => 0)))
    ensures HasRegion(p) <==> exists x | 0 <= x < |blocks[0].lvls| :: blocks[0].lvls[x].Ctrl?
  {
    hide LevelsFrom, Live, LvlInstrs, LevelsOf, Nested, HasRegion, JobOk;
    var b := blocks[0];
    assert BlockOk(p, n, s.laneStreams, owner, jobs, b);
    assert b.at[0] == seq(n, L => 0);
    RootedRest(p, n, s, owner, jobs, b, 0);
    RootLevels(p, n, s.laneStreams, owner, jobs, b);
  }

  lemma RootLevels(p: Program, n: pos, lanes: seq<seq<Entry>>, owner: seq<nat>, jobs: seq<Job>, b: Block)
    requires BlockOk(p, n, lanes, owner, jobs, b) && b.range == (0, p.mainLen) && b.depth == 0
    ensures HasRegion(p) <==> exists x | 0 <= x < |b.lvls| :: b.lvls[x].Ctrl?
  {
    hide LevelsFrom, Live, LvlInstrs, LevelsOf, HasRegion, UnitsFor, RowAt;
    forall x | 0 <= x < |b.lvls|
      ensures if b.lvls[x].Work? then AllSchedulable(p, b.lvls[x].part)
          else b.lvls[x].idx < |p.instrs| && p.instrs[b.lvls[x].idx].IsRegion()
    {
      assert LvlAt(p, owner, jobs, b, x);
    }
    RootRegions(p, b);
  }

  lemma RootRegions(p: Program, b: Block)
    requires b.range == (0, p.mainLen) && InRange(p, Range(0, p.mainLen))
    requires LvlInstrs(b.lvls) == Live(p, Range(0, p.mainLen))
    requires LevelsOf(b.lvls) == LevelsFrom(p, [], Range(0, p.mainLen)) && Nested(p, b.range, 0)
    requires forall x | 0 <= x < |b.lvls| :: if b.lvls[x].Work? then AllSchedulable(p, b.lvls[x].part)
        else b.lvls[x].idx < |p.instrs| && p.instrs[b.lvls[x].idx].IsRegion()
    ensures HasRegion(p) <==> exists x | 0 <= x < |b.lvls| :: b.lvls[x].Ctrl?
  {
    if x :| 0 <= x < |b.lvls| && b.lvls[x].Ctrl? {
      LvlMember(b.lvls, x);
      LiveMember(p, Range(0, p.mainLen), b.lvls[x].idx);
    }
    if HasRegion(p) {
      var i: nat :| i < p.mainLen && i < |p.instrs| && p.instrs[i].IsRegion();
      assert Range(0, p.mainLen)[i] == i;
      LiveKeeps(p, Range(0, p.mainLen), i);
      var x := RegionLevel(p, b.lvls, i);
    }
  }

  lemma RegionLevel(p: Program, lvls: seq<Lvl>, i: nat) returns (x: nat)
    requires i in LvlInstrs(lvls) && i < |p.instrs| && p.instrs[i].IsRegion()
    requires forall x | 0 <= x < |lvls| && lvls[x].Work? :: AllSchedulable(p, lvls[x].part)
    ensures x < |lvls| && lvls[x].Ctrl?
  {
    x := LvlFinds(lvls, i);
  }

  // ----- near the optimum ---------------------------------------------------------------------

  function Sums(limits: seq<real>): real {
    if limits == [] then 0.0 else limits[0] + Sums(limits[1..])
  }

  predicate PhaseFits(units: seq<Unit>, n: pos, best: seq<nat>, limit: real) {
    limit >= 0.0 && Fits(Costs(SortedChunks(units, n)), best, n, limit)
  }

  lemma PhaseNear(units: seq<Unit>, n: pos, best: seq<nat>, limit: real)
    requires PhaseFits(units, n, best, limit) && forall x | 0 <= x < |units| :: units[x].cost >= 0.0
    ensures Below(n as real, Latest(PhaseLoads(units, n)), limit)
  {
    PackingBound(units, n, best, limit);
    var loads := PhaseLoads(units, n);
    var L :| 0 <= L < n && loads[L] == Latest(loads);
    var costs := Costs(SortedChunks(units, n));
    assert NearLane(costs, Place(costs, n), n, limit, L);
  }

  /** Against any placement of the same chunks, phase by phase, the planned time is at most
      (4n - 1)/(3n) times as long. */
  lemma {:induction false} MakespanNear(lvls: seq<Lvl>, n: pos, bests: seq<seq<nat>>, limits: seq<real>)
    requires |bests| == |limits| == |lvls|
    requires forall k | 0 <= k < |lvls| :: lvls[k].Work? && PhaseFits(lvls[k].units, n, bests[k], limits[k])
    requires forall k, x | 0 <= k < |lvls| && 0 <= x < |lvls[k].units| :: lvls[k].units[x].cost >= 0.0
    ensures Below(n as real, PhasesTake(lvls, n), Sums(limits))
  {
    hide PhaseLoads, Below, PhaseFits;
    if lvls == [] {
      ZeroBelow(n as real);
    } else {
      PhaseNear(lvls[0].units, n, bests[0], limits[0]);
      MakespanNear(lvls[1..], n, bests[1..], limits[1..]);
      SumArithmetic(n as real, Latest(PhaseLoads(lvls[0].units, n)), limits[0], PhasesTake(lvls[1..], n),
          Sums(limits[1..]));
    }
  }

  lemma ZeroBelow(n: real)
    ensures Below(n, 0.0, 0.0)
  {
  }

  lemma SumArithmetic(n: real, a: real, s: real, b: real, t: real)
    requires Below(n, a, s) && Below(n, b, t)
    ensures Below(n, a + b, s + t)
  {
    assert 3.0 * n * (a + b) == 3.0 * n * a + 3.0 * n * b;
    assert (4.0 * n - 1.0) * (s + t) == (4.0 * n - 1.0) * s + (4.0 * n - 1.0) * t;
  }
}
