/** Cost-driven packing of one phase's units onto lanes: proportional chunking, then list
    scheduling of the chunks, longest first, each onto the least loaded lane. */
module Packing {
  import opened Arith
  import opened Isa
  import opened Interleave
  import opened Streams

  /** A chain of tasks that must run together, its tile count and its total cost. */
  datatype Unit = Unit(tids: seq<nat>, tiles: nat, cost: real)
  datatype Chunk = Chunk(cost: real, uid: nat, tids: seq<nat>, lo: nat, hi: nat)

  // ----- chunking -----------------------------------------------------------------

  function Ceil(x: real): int { -((-x).Floor) }

  function TotalCost(units: seq<Unit>): real {
    if units == [] then 0.0 else units[0].cost + TotalCost(units[1..])
  }

  /** The divisor of the cost shares; a zero sum counts as one. */
  function Divisor(units: seq<Unit>): real {
    var sum := TotalCost(units);
    if sum == 0.0 then 1.0 else sum
  }

  function Fanout(u: Unit, n: nat, total: real): nat
    requires total != 0.0
  {
    var share := Max(1, Ceil(n as real * u.cost / total));
    if u.tiles < share then u.tiles else share
  }

  /** The chunk boundary that starts part `j` of `k`. */
  function Cut(tiles: nat, j: nat, k: pos): nat { tiles * j / k }

  lemma CutMonotone(tiles: nat, j: nat, k: pos)
    ensures Cut(tiles, j, k) <= Cut(tiles, j + 1, k)
    ensures Cut(tiles, 0, k) == 0 && Cut(tiles, k, k) == tiles
  {
    DivMonotone(tiles * j, tiles * (j + 1), k);
    DivMultiple(tiles, k);
  }

  function PartOf(uid: nat, u: Unit, j: nat, k: pos): Chunk
    requires u.tiles > 0
  {
    var lo, hi := Cut(u.tiles, j, k), Cut(u.tiles, j + 1, k);
    Chunk(u.cost * (hi - lo) as real / u.tiles as real, uid, u.tids, lo, hi)
  }

  /** Parts `j` and later of one unit. */
  function PartsFrom(uid: nat, u: Unit, j: nat, k: nat): seq<Chunk>
    requires j <= k && (k > 0 ==> u.tiles > 0)
    decreases k - j
  {
    if j == k then [] else [PartOf(uid, u, j, k)] + PartsFrom(uid, u, j + 1, k)
  }

  function UnitParts(uid: nat, u: Unit, n: nat, total: real): seq<Chunk>
    requires total != 0.0
  {
    PartsFrom(uid, u, 0, Fanout(u, n, total))
  }

  function PartsOfAll(units: seq<Unit>, from: nat, n: nat, total: real): seq<Chunk>
    requires from <= |units| && total != 0.0
    decreases |units| - from
  {
    if from == |units| then [] else UnitParts(from, units[from], n, total) + PartsOfAll(units, from + 1, n, total)
  }

  // ----- sorting: cost descending, then unit, then first tile -----------------------

  predicate NoLater(c: Chunk, d: Chunk) {
    c.cost > d.cost || (c.cost == d.cost && (c.uid < d.uid || (c.uid == d.uid && c.lo <= d.lo)))
  }

  function InsertChunk(c: Chunk, s: seq<Chunk>): (r: seq<Chunk>)
    ensures multiset(r) == multiset{c} + multiset(s)
  {
    if s == [] || NoLater(c, s[0]) then [c] + s
    else
      assert s == [s[0]] + s[1..];
      [s[0]] + InsertChunk(c, s[1..])
  }

  function SortChunks(s: seq<Chunk>): (r: seq<Chunk>)
    ensures multiset(r) == multiset(s)
  {
    if s == [] then []
    else
      assert s == [s[0]] + s[1..];
      InsertChunk(s[0], SortChunks(s[1..]))
  }

  predicate Descending(s: seq<Chunk>) {
    forall x, y | 0 <= x < y < |s| :: s[x].cost >= s[y].cost
  }

  lemma {:induction false} InsertDescending(c: Chunk, s: seq<Chunk>)
    requires Descending(s)
    ensures Descending(InsertChunk(c, s))
  {
    if s != [] && !NoLater(c, s[0]) {
      var r := InsertChunk(c, s[1..]);
      InsertDescending(c, s[1..]);
      forall y | 0 <= y < |r|
        ensures s[0].cost >= r[y].cost
      {
        assert r[y] in multiset(r);
        if r[y] != c {
          var z :| 0 <= z < |s[1..]| && s[1..][z] == r[y];
          assert s[0].cost >= s[z + 1].cost;
        }
      }
    }
  }

  lemma {:induction false} SortDescending(s: seq<Chunk>)
    ensures Descending(SortChunks(s))
  {
    if s == [] {
    } else {
      SortDescending(s[1..]);
      InsertDescending(s[0], SortChunks(s[1..]));
    }
  }

  // ----- placement --------------------------------------------------------------------

  /** The weight that an assignment `place` puts on one lane. */
  function Load(weights: seq<real>, place: seq<nat>, lane: nat): real
    requires |weights| == |place|
  {
    if weights == [] then 0.0
    else
      var k := |weights| - 1;
      Load(weights[..k], place[..k], lane) + if place[k] == lane then weights[k] else 0.0
  }

  /** The first least loaded lane. */
  function ArgMin(loads: seq<real>): (lane: nat)
    requires loads != []
    ensures lane < |loads|
    ensures forall L | 0 <= L < |loads| :: loads[lane] <= loads[L] && (L < lane ==> loads[lane] < loads[L])
  {
    var k := |loads| - 1;
    if k == 0 then 0
    else
      var best := ArgMin(loads[..k]);
      assert forall L | 0 <= L < k :: loads[..k][L] == loads[L];
      if loads[k] < loads[best] then k else best
  }

  function Loads(weights: seq<real>, place: seq<nat>, n: nat): seq<real>
    requires |weights| == |place|
  {
    seq(n, L requires 0 <= L < n => Load(weights, place, L))
  }

  /** List scheduling: each weight in turn goes to the least loaded lane so far. */
  function Place(weights: seq<real>, n: pos): (place: seq<nat>)
    ensures |place| == |weights| && forall x | 0 <= x < |place| :: place[x] < n
  {
    if weights == [] then []
    else
      var k := |weights| - 1;
      var before := Place(weights[..k], n);
      before + [ArgMin(Loads(weights[..k], before, n))]
  }

  function Costs(chunks: seq<Chunk>): seq<real> {
    seq(|chunks|, x requires 0 <= x < |chunks| => chunks[x].cost)
  }

  function ChunkEntries(tids: seq<nat>, lo: nat, hi: nat): seq<Entry> {
    seq(|tids|, x requires 0 <= x < |tids| => TileEntry(tids[x], lo, hi))
  }

  /** What one lane receives: its chunks' entries, in placement order. */
  function LaneEntries(chunks: seq<Chunk>, place: seq<nat>, lane: nat): seq<Entry>
    requires |chunks| == |place|
  {
    if chunks == [] then []
    else
      var k := |chunks| - 1;
      LaneEntries(chunks[..k], place[..k], lane)
      + if place[k] == lane then ChunkEntries(chunks[k].tids, chunks[k].lo, chunks[k].hi) else []
  }

  function SortedChunks(units: seq<Unit>, n: nat): seq<Chunk> {
    SortChunks(PartsOfAll(units, 0, n, Divisor(units)))
  }

  /** What one lane receives when the chunks are list scheduled in the given order. */
  function Placed(chunks: seq<Chunk>, n: pos, lane: nat): seq<Entry> {
    LaneEntries(chunks, Place(Costs(chunks), n), lane)
  }

  /** The entries of one packed phase, lane by lane. */
  function Packed(units: seq<Unit>, n: pos): (lanes: seq<seq<Entry>>)
    ensures |lanes| == n
  {
    seq(n, L requires 0 <= L < n => Placed(SortedChunks(units, n), n, L))
  }

  /** The packing loops. The result is a list of (lane, entry) pairs; appending each pair to
      its lane yields `Packed`. */
  method PackUnits(units: seq<Unit>, n: pos) returns (result: seq<(nat, Entry)>)
    ensures forall x | 0 <= x < |result| :: result[x].0 < n
    ensures forall L | 0 <= L < n :: Select(result, L) == Packed(units, n)[L]
  {
    var chunks := SplitAll(units, n, Divisor(units));
    result := PlaceChunks(SortChunks(chunks), n);
  }

  method SplitAll(units: seq<Unit>, n: pos, total: real) returns (chunks: seq<Chunk>)
    requires total != 0.0
    ensures chunks == PartsOfAll(units, 0, n, total)
  {
    chunks := [];
    var uid := 0;
    while uid < |units|
      invariant 0 <= uid <= |units|
      invariant PartsOfAll(units, 0, n, total) == chunks + PartsOfAll(units, uid, n, total)
    {
      var parts := SplitUnit(uid, units[uid], n, total);
      assert PartsOfAll(units, uid, n, total) == parts + PartsOfAll(units, uid + 1, n, total);
      chunks := chunks + parts;
      uid := uid + 1;
    }
    assert PartsOfAll(units, uid, n, total) == [];
  }

  method SplitUnit(uid: nat, u: Unit, n: nat, total: real) returns (parts: seq<Chunk>)
    requires total != 0.0
    ensures parts == UnitParts(uid, u, n, total)
  {
    parts := [];
    var k := Fanout(u, n, total);
    var j := 0;
    while j < k
      invariant 0 <= j <= k
      invariant UnitParts(uid, u, n, total) == parts + PartsFrom(uid, u, j, k)
    {
      parts := parts + [PartOf(uid, u, j, k)];
      j := j + 1;
    }
  }

  function Select(pairs: seq<(nat, Entry)>, lane: nat): seq<Entry> {
    if pairs == [] then []
    else
      var k := |pairs| - 1;
      Select(pairs[..k], lane) + if pairs[k].0 == lane then [pairs[k].1] else []
  }

  /** Appends a chunk's whole chain to one lane. */
  method EmitChunk(pairs: seq<(nat, Entry)>, lane: nat, c: Chunk) returns (result: seq<(nat, Entry)>)
    ensures forall L: nat ::
        Select(result, L) == Select(pairs, L) + if L == lane then ChunkEntries(c.tids, c.lo, c.hi) else []
    ensures forall x | 0 <= x < |result| :: result[x].0 == lane || result[x] in pairs
  {
    result := pairs;
    var t := 0;
    while t < |c.tids|
      invariant 0 <= t <= |c.tids|
      invariant forall x | 0 <= x < |result| :: result[x].0 == lane || result[x] in pairs
      invariant forall L: nat :: Select(result, L) == Select(pairs, L)
                  + if L == lane then ChunkEntries(c.tids, c.lo, c.hi)[..t] else []
    {
      ghost var was := result;
      result := result + [(lane, TileEntry(c.tids[t], c.lo, c.hi))];
      assert result[..|was|] == was;
      t := t + 1;
    }
  }

  function LoadsAfter(chunks: seq<Chunk>, n: pos): (loads: seq<real>)
    ensures |loads| == n
  {
    Loads(Costs(chunks), Place(Costs(chunks), n), n)
  }

  lemma PlaceStep(chunks: seq<Chunk>, c: nat, n: pos)
    requires c < |chunks|
    ensures var loads := LoadsAfter(chunks[..c], n);
            var lane := ArgMin(loads);
            && LoadsAfter(chunks[..c + 1], n) == loads[lane := loads[lane] + chunks[c].cost]
            && forall L: nat :: Placed(chunks[..c + 1], n, L) == Placed(chunks[..c], n, L)
                  + if L == lane then ChunkEntries(chunks[c].tids, chunks[c].lo, chunks[c].hi) else []
  {
    hide TileEntry;
    var before, costs := Costs(chunks[..c]), Costs(chunks[..c + 1]);
    assert costs[..c] == before && costs[c] == chunks[c].cost;
    assert chunks[..c + 1][..c] == chunks[..c];
    assert Place(costs, n)[..c] == Place(before, n);
  }

  method PlaceChunks(chunks: seq<Chunk>, n: pos) returns (result: seq<(nat, Entry)>)
    ensures forall x | 0 <= x < |result| :: result[x].0 < n
    ensures forall L | 0 <= L < n :: Select(result, L) == Placed(chunks, n, L)
  {
    result := [];
    var loads := seq(n, L requires 0 <= L < n => 0.0);
    var c := 0;
    while c < |chunks|
      invariant 0 <= c <= |chunks|
      invariant loads == LoadsAfter(chunks[..c], n)
      invariant forall x | 0 <= x < |result| :: result[x].0 < n
      invariant forall L | 0 <= L < n :: Select(result, L) == Placed(chunks[..c], n, L)
    {
      var lane := ArgMin(loads);
      PlaceStep(chunks, c, n);
      result := EmitChunk(result, lane, chunks[c]);
      loads := loads[lane := loads[lane] + chunks[c].cost];
      c := c + 1;
    }
    assert chunks[..c] == chunks;
  }

  // ----- every tile once ----------------------------------------------------------------

  predicate TidsOk(owner: seq<nat>, tids: seq<nat>) {
    forall x | 0 <= x < |tids| :: tids[x] < |owner|
  }

  /** A chain over a tile range: all tiles of its first task, then of its second, ... */
  function ChainSteps(owner: seq<nat>, tids: seq<nat>, lo: nat, hi: nat): seq<Step>
    requires lo <= hi && TidsOk(owner, tids)
  {
    if tids == [] then [] else TileSteps(owner[tids[0]], lo, hi) + ChainSteps(owner, tids[1..], lo, hi)
  }

  predicate ChunkOk(owner: seq<nat>, c: Chunk) {
    c.lo <= c.hi && TidsOk(owner, c.tids)
  }

  function ChunkSteps(owner: seq<nat>, c: Chunk): seq<Step>
    requires ChunkOk(owner, c)
  {
    ChainSteps(owner, c.tids, c.lo, c.hi)
  }

  lemma {:induction false} ChainEntries(owner: seq<nat>, tids: seq<nat>, lo: nat, hi: nat)
    requires lo <= hi && TidsOk(owner, tids)
    ensures EntriesOk(owner, ChunkEntries(tids, lo, hi))
    ensures EntrySteps(owner, ChunkEntries(tids, lo, hi)) == ChainSteps(owner, tids, lo, hi)
  {
    var es := ChunkEntries(tids, lo, hi);
    forall e | e in es
      ensures e.task < |owner| && e.tileLo <= e.tileHi
    {
      var x :| 0 <= x < |es| && es[x] == e;
    }
    if tids == [] {
    } else {
      assert es[1..] == ChunkEntries(tids[1..], lo, hi);
      ChainEntries(owner, tids[1..], lo, hi);
    }
  }

  lemma {:induction false} TileStepsSplit(i: nat, lo: nat, mid: nat, hi: nat)
    requires lo <= mid <= hi
    ensures TileSteps(i, lo, mid) + TileSteps(i, mid, hi) == TileSteps(i, lo, hi)
  {
  }

  lemma {:induction false} ChainSplit(owner: seq<nat>, tids: seq<nat>, lo: nat, mid: nat, hi: nat)
    requires lo <= mid <= hi && TidsOk(owner, tids)
    ensures multiset(ChainSteps(owner, tids, lo, mid)) + multiset(ChainSteps(owner, tids, mid, hi))
         == multiset(ChainSteps(owner, tids, lo, hi))
  {
    if tids == [] {
    } else {
      TileStepsSplit(owner[tids[0]], lo, mid, hi);
      ChainSplit(owner, tids[1..], lo, mid, hi);
    }
  }

  predicate ChunksOk(owner: seq<nat>, chunks: seq<Chunk>) {
    forall x | 0 <= x < |chunks| :: ChunkOk(owner, chunks[x])
  }

  function ChunkBag(owner: seq<nat>, chunks: seq<Chunk>): multiset<Step>
    requires ChunksOk(owner, chunks)
  {
    if chunks == [] then multiset{}
    else multiset(ChunkSteps(owner, chunks[0])) + ChunkBag(owner, chunks[1..])
  }

  lemma {:induction false} ChunkBagConcat(owner: seq<nat>, a: seq<Chunk>, b: seq<Chunk>)
    requires ChunksOk(owner, a) && ChunksOk(owner, b)
    ensures ChunkBag(owner, a + b) == ChunkBag(owner, a) + ChunkBag(owner, b)
  {
    if a == [] {
      assert a + b == b;
    } else {
      assert (a + b)[1..] == a[1..] + b;
      ChunkBagConcat(owner, a[1..], b);
    }
  }

  predicate UnitsOk(owner: seq<nat>, units: seq<Unit>) {
    forall x | 0 <= x < |units| :: TidsOk(owner, units[x].tids)
  }

  /** What the units ask for: every tile of every task of every chain. */
  function UnitBag(owner: seq<nat>, units: seq<Unit>, from: nat): multiset<Step>
    requires from <= |units| && UnitsOk(owner, units)
    decreases |units| - from
  {
    if from == |units| then multiset{}
    else multiset(ChainSteps(owner, units[from].tids, 0, units[from].tiles)) + UnitBag(owner, units, from + 1)
  }

  lemma {:induction false} PartsCover(owner: seq<nat>, uid: nat, u: Unit, j: nat, k: nat)
    requires j <= k && (k > 0 ==> u.tiles > 0) && (k == 0 ==> u.tiles == 0)
    requires TidsOk(owner, u.tids)
    ensures ChunksOk(owner, PartsFrom(uid, u, j, k))
    ensures k > 0 ==> Cut(u.tiles, j, k) <= u.tiles
    ensures ChunkBag(owner, PartsFrom(uid, u, j, k))
         == multiset(ChainSteps(owner, u.tids, if k == 0 then 0 else Cut(u.tiles, j, k), u.tiles))
    decreases k - j
  {
    if k == 0 {
      EmptyChain(owner, u.tids, 0);
    } else {
      CutMonotone(u.tiles, j, k);
      if j == k {
        EmptyChain(owner, u.tids, u.tiles);
      } else {
        PartsCover(owner, uid, u, j + 1, k);
        ChainSplit(owner, u.tids, Cut(u.tiles, j, k), Cut(u.tiles, j + 1, k), u.tiles);
        assert PartsFrom(uid, u, j, k)[1..] == PartsFrom(uid, u, j + 1, k);
      }
    }
  }

  lemma {:induction false} EmptyChain(owner: seq<nat>, tids: seq<nat>, x: nat)
    requires TidsOk(owner, tids)
    ensures ChainSteps(owner, tids, x, x) == []
  {
    if tids == [] {
    } else {
      EmptyChain(owner, tids[1..], x);
    }
  }

  lemma {:induction false} AllPartsCover(owner: seq<nat>, units: seq<Unit>, from: nat, n: nat, total: real)
    requires from <= |units| && total != 0.0 && UnitsOk(owner, units)
    ensures ChunksOk(owner, PartsOfAll(units, from, n, total))
    ensures ChunkBag(owner, PartsOfAll(units, from, n, total)) == UnitBag(owner, units, from)
    decreases |units| - from
  {
    if from >= |units| {
    } else {
      var u := units[from];
      var k := Fanout(u, n, total);
      PartsCover(owner, from, u, 0, k);
      if k > 0 {
        CutMonotone(u.tiles, 0, k);
      }
      AllPartsCover(owner, units, from + 1, n, total);
      ChunkBagConcat(owner, UnitParts(from, u, n, total), PartsOfAll(units, from + 1, n, total));
    }
  }

  lemma {:induction false} InsertBag(owner: seq<nat>, c: Chunk, s: seq<Chunk>)
    requires ChunkOk(owner, c) && ChunksOk(owner, s)
    ensures ChunksOk(owner, InsertChunk(c, s))
    ensures ChunkBag(owner, InsertChunk(c, s)) == multiset(ChunkSteps(owner, c)) + ChunkBag(owner, s)
  {
    if s == [] || NoLater(c, s[0]) {
      assert ([c] + s)[1..] == s;
    } else {
      InsertBag(owner, c, s[1..]);
      assert InsertChunk(c, s)[1..] == InsertChunk(c, s[1..]);
    }
  }

  lemma {:induction false} SortBag(owner: seq<nat>, s: seq<Chunk>)
    requires ChunksOk(owner, s)
    ensures ChunksOk(owner, SortChunks(s)) && ChunkBag(owner, SortChunks(s)) == ChunkBag(owner, s)
  {
    if s == [] {
    } else {
      SortBag(owner, s[1..]);
      InsertBag(owner, s[0], SortChunks(s[1..]));
    }
  }

  // ----- chunks do not overlap --------------------------------------------------------

  /** Two chunks of different units, or of disjoint tile ranges. */
  predicate Apart(c: Chunk, d: Chunk) {
    c.uid != d.uid || c.hi <= d.lo || d.hi <= c.lo
  }

  predicate PairwiseApart(s: seq<Chunk>) {
    forall x, y | 0 <= x < y < |s| :: Apart(s[x], s[y])
  }

  predicate ComesFrom(units: seq<Unit>, c: Chunk) {
    c.uid < |units| && c.tids == units[c.uid].tids && c.lo <= c.hi <= units[c.uid].tiles
  }

  lemma {:induction false} PartsApart(uid: nat, u: Unit, j: nat, k: nat)
    requires j <= k && (k > 0 ==> u.tiles > 0)
    ensures forall x | 0 <= x < |PartsFrom(uid, u, j, k)| ::
              var c := PartsFrom(uid, u, j, k)[x];
              c.uid == uid && c.tids == u.tids && Cut(u.tiles, j, k) <= c.lo <= c.hi <= u.tiles
    ensures k > 0 ==> Cut(u.tiles, j, k) <= u.tiles
    ensures PairwiseApart(PartsFrom(uid, u, j, k))
    decreases k - j
  {
    if k == 0 {
    } else {
      CutMonotone(u.tiles, j, k);
      if j < k {
        PartsApart(uid, u, j + 1, k);
      }
    }
  }

  lemma {:induction false} AllPartsApart(units: seq<Unit>, from: nat, n: nat, total: real)
    requires from <= |units| && total != 0.0
    ensures forall x | 0 <= x < |PartsOfAll(units, from, n, total)| ::
              var c := PartsOfAll(units, from, n, total)[x]; ComesFrom(units, c) && c.uid >= from
    ensures PairwiseApart(PartsOfAll(units, from, n, total))
    decreases |units| - from
  {
    if from >= |units| {
    } else {
      PartsApart(from, units[from], 0, Fanout(units[from], n, total));
      AllPartsApart(units, from + 1, n, total);
    }
  }

  lemma {:induction false} InsertApart(c: Chunk, s: seq<Chunk>)
    requires PairwiseApart(s) && forall x | 0 <= x < |s| :: Apart(c, s[x])
    ensures PairwiseApart(InsertChunk(c, s))
  {
    if s != [] && !NoLater(c, s[0]) {
      var r := InsertChunk(c, s[1..]);
      InsertApart(c, s[1..]);
      forall y | 0 <= y < |r|
        ensures Apart(s[0], r[y])
      {
        assert r[y] in multiset(r);
        if r[y] != c {
          var z :| 0 <= z < |s[1..]| && s[1..][z] == r[y];
          assert Apart(s[0], s[z + 1]);
        }
      }
    }
  }

  lemma {:induction false} SortApart(s: seq<Chunk>)
    requires PairwiseApart(s)
    ensures PairwiseApart(SortChunks(s))
  {
    if s == [] {
    } else {
      SortApart(s[1..]);
      forall y | 0 <= y < |SortChunks(s[1..])|
        ensures Apart(s[0], SortChunks(s[1..])[y])
      {
        assert SortChunks(s[1..])[y] in multiset(SortChunks(s[1..]));
        var z :| 0 <= z < |s[1..]| && s[1..][z] == SortChunks(s[1..])[y];
        assert Apart(s[0], s[z + 1]);
      }
      InsertApart(s[0], SortChunks(s[1..]));
    }
  }

  /** The placed chunks come from the units, cover each unit's tiles exactly once, and are
      pairwise apart, whatever the lane count and the costs. */
  lemma PackedChunks(owner: seq<nat>, units: seq<Unit>, n: nat)
    requires UnitsOk(owner, units)
    ensures var chunks := SortedChunks(units, n);
            && ChunksOk(owner, chunks) && PairwiseApart(chunks)
            && ChunkBag(owner, chunks) == UnitBag(owner, units, 0)
            && forall x | 0 <= x < |chunks| :: ComesFrom(units, chunks[x])
  {
    var parts := PartsOfAll(units, 0, n, Divisor(units));
    AllPartsCover(owner, units, 0, n, Divisor(units));
    SortBag(owner, parts);
    AllPartsApart(units, 0, n, Divisor(units));
    SortApart(parts);
    var chunks := SortChunks(parts);
    forall x | 0 <= x < |chunks|
      ensures ComesFrom(units, chunks[x])
    {
      assert chunks[x] in multiset(chunks);
      var z :| 0 <= z < |parts| && parts[z] == chunks[x];
    }
  }

  // ----- the order inside and across lanes -----------------------------------------------

  function LaneSteps(owner: seq<nat>, chunks: seq<Chunk>, place: seq<nat>, lane: nat): seq<Step>
    requires |chunks| == |place| && ChunksOk(owner, chunks)
  {
    if chunks == [] then []
    else
      var k := |chunks| - 1;
      LaneSteps(owner, chunks[..k], place[..k], lane) + if place[k] == lane then ChunkSteps(owner, chunks[k]) else []
  }

  lemma {:induction false} LaneEntriesSteps(owner: seq<nat>, chunks: seq<Chunk>, place: seq<nat>, lane: nat)
    requires |chunks| == |place| && ChunksOk(owner, chunks)
    ensures EntriesOk(owner, LaneEntries(chunks, place, lane))
    ensures EntrySteps(owner, LaneEntries(chunks, place, lane)) == LaneSteps(owner, chunks, place, lane)
  {
    if chunks == [] {
    } else {
      var k := |chunks| - 1;
      var c := chunks[k];
      LaneEntriesSteps(owner, chunks[..k], place[..k], lane);
      ChainEntries(owner, c.tids, c.lo, c.hi);
      var tail := if place[k] == lane then ChunkEntries(c.tids, c.lo, c.hi) else [];
      EntryStepsConcat(owner, LaneEntries(chunks[..k], place[..k], lane), tail);
    }
  }

  lemma {:induction false} LaneOrigin(owner: seq<nat>, chunks: seq<Chunk>, place: seq<nat>, lane: nat, x: nat)
    returns (q: nat, y: nat)
    requires |chunks| == |place| && ChunksOk(owner, chunks)
    requires x < |LaneSteps(owner, chunks, place, lane)|
    ensures q < |chunks| && place[q] == lane && y < |ChunkSteps(owner, chunks[q])|
    ensures LaneSteps(owner, chunks, place, lane)[x] == ChunkSteps(owner, chunks[q])[y]
  {
    var k := |chunks| - 1;
    var before := LaneSteps(owner, chunks[..k], place[..k], lane);
    if x < |before| {
      q, y := LaneOrigin(owner, chunks[..k], place[..k], lane, x);
    } else {
      q, y := k, x - |before|;
    }
  }

  /** A relation that never holds within a chunk in chunk order, nor between two chunks. */
  ghost predicate Avoided(owner: seq<nat>, chunks: seq<Chunk>, bad: (Step, Step) -> bool)
    requires ChunksOk(owner, chunks)
  {
    && (forall q | 0 <= q < |chunks| :: Clean(ChunkSteps(owner, chunks[q]), bad))
    && (forall q, r | 0 <= q < |chunks| && 0 <= r < |chunks| && q != r ::
          CleanPair(ChunkSteps(owner, chunks[q]), ChunkSteps(owner, chunks[r]), bad))
  }

  lemma {:induction false} LaneAvoids(owner: seq<nat>, chunks: seq<Chunk>, place: seq<nat>, lane: nat,
                                      bad: (Step, Step) -> bool)
    requires |chunks| == |place| && ChunksOk(owner, chunks) && Avoided(owner, chunks, bad)
    ensures Clean(LaneSteps(owner, chunks, place, lane), bad)
  {
    if chunks == [] {
    } else {
      var k := |chunks| - 1;
      var before, last := LaneSteps(owner, chunks[..k], place[..k], lane), ChunkSteps(owner, chunks[k]);
      assert Avoided(owner, chunks[..k], bad);
      LaneAvoids(owner, chunks[..k], place[..k], lane, bad);
      forall x, y | 0 <= x < |before| && 0 <= y < |last|
        ensures !bad(before[x], last[y])
      {
        var q, z := LaneOrigin(owner, chunks[..k], place[..k], lane, x);
        assert CleanPair(ChunkSteps(owner, chunks[q]), last, bad);
      }
      CleanConcat(before, last, bad);
      CleanConcat(before, [], bad);
    }
  }

  lemma CrossLaneAvoids(owner: seq<nat>, chunks: seq<Chunk>, place: seq<nat>, L: nat, R: nat, bad: (Step, Step) -> bool)
    requires |chunks| == |place| && ChunksOk(owner, chunks) && Avoided(owner, chunks, bad) && L != R
    ensures CleanPair(LaneSteps(owner, chunks, place, L), LaneSteps(owner, chunks, place, R), bad)
  {
    var s, t := LaneSteps(owner, chunks, place, L), LaneSteps(owner, chunks, place, R);
    forall x, y | 0 <= x < |s| && 0 <= y < |t|
      ensures !bad(s[x], t[y])
    {
      var q, u := LaneOrigin(owner, chunks, place, L, x);
      var r, v := LaneOrigin(owner, chunks, place, R, y);
      assert CleanPair(ChunkSteps(owner, chunks[q]), ChunkSteps(owner, chunks[r]), bad);
    }
  }

  function AllLanes(owner: seq<nat>, chunks: seq<Chunk>, place: seq<nat>, n: nat): seq<seq<Step>>
    requires |chunks| == |place| && ChunksOk(owner, chunks)
  {
    seq(n, L requires 0 <= L < n => LaneSteps(owner, chunks, place, L))
  }

  lemma BagStep(lanes: seq<seq<Step>>, L: nat, more: seq<Step>)
    requires L < |lanes|
    ensures Bag(lanes[L := lanes[L] + more]) == Bag(lanes) + multiset(more)
  {
    var now := Bag(lanes[L := lanes[L] + more]);
    var was, added := multiset(lanes[L]), multiset(more);
    BagUpdate(lanes, L, lanes[L] + more);
    assert multiset(lanes[L] + more) == was + added;
    assert forall e :: now[e] == (now + was)[e] - was[e];
  }

  lemma AllLanesStep(owner: seq<nat>, chunks: seq<Chunk>, place: seq<nat>, n: nat)
    requires |chunks| == |place| > 0 && ChunksOk(owner, chunks)
    requires place[|place| - 1] < n
    ensures var k := |chunks| - 1;
            var before := AllLanes(owner, chunks[..k], place[..k], n);
            AllLanes(owner, chunks, place, n) == before[place[k] := before[place[k]] + ChunkSteps(owner, chunks[k])]
  {
    var k := |chunks| - 1;
    var before, lanes := AllLanes(owner, chunks[..k], place[..k], n), AllLanes(owner, chunks, place, n);
    var grown := before[place[k] := before[place[k]] + ChunkSteps(owner, chunks[k])];
    forall R | 0 <= R < n
      ensures lanes[R] == grown[R]
    {
    }
  }

  lemma ChunkBagLast(owner: seq<nat>, chunks: seq<Chunk>)
    requires chunks != [] && ChunksOk(owner, chunks)
    ensures var k := |chunks| - 1;
            ChunkBag(owner, chunks) == ChunkBag(owner, chunks[..k]) + multiset(ChunkSteps(owner, chunks[k]))
  {
    var k := |chunks| - 1;
    assert chunks == chunks[..k] + [chunks[k]];
    ChunkBagConcat(owner, chunks[..k], [chunks[k]]);
    assert ChunkBag(owner, [chunks[k]]) == multiset(ChunkSteps(owner, chunks[k])) + ChunkBag(owner, []);
  }

  lemma {:induction false} AllLanesBag(owner: seq<nat>, chunks: seq<Chunk>, place: seq<nat>, n: nat)
    requires |chunks| == |place| && ChunksOk(owner, chunks)
    requires forall x | 0 <= x < |place| :: place[x] < n
    ensures Bag(AllLanes(owner, chunks, place, n)) == ChunkBag(owner, chunks)
  {
    if chunks == [] {
      BagOfEmpty(AllLanes(owner, chunks, place, n));
    } else {
      var k := |chunks| - 1;
      AllLanesBag(owner, chunks[..k], place[..k], n);
      AllLanesStep(owner, chunks, place, n);
      BagStep(AllLanes(owner, chunks[..k], place[..k], n), place[k], ChunkSteps(owner, chunks[k]));
      ChunkBagLast(owner, chunks);
    }
  }

  predicate PackedOk(owner: seq<nat>, units: seq<Unit>, n: pos) {
    forall L | 0 <= L < n :: EntriesOk(owner, Packed(units, n)[L])
  }

  lemma PackedIsOk(owner: seq<nat>, units: seq<Unit>, n: pos)
    requires UnitsOk(owner, units)
    ensures PackedOk(owner, units, n)
  {
    var chunks := SortedChunks(units, n);
    PackedChunks(owner, units, n);
    forall L | 0 <= L < n
      ensures EntriesOk(owner, Packed(units, n)[L])
    {
      LaneEntriesSteps(owner, chunks, Place(Costs(chunks), n), L);
    }
  }

  function PackedSteps(owner: seq<nat>, units: seq<Unit>, n: pos): seq<seq<Step>>
    requires PackedOk(owner, units, n)
  {
    seq(n, L requires 0 <= L < n => EntrySteps(owner, Packed(units, n)[L]))
  }

  lemma PackedStepsAre(owner: seq<nat>, units: seq<Unit>, n: pos)
    requires UnitsOk(owner, units)
    ensures PackedOk(owner, units, n) && ChunksOk(owner, SortedChunks(units, n))
    ensures var chunks := SortedChunks(units, n);
            PackedSteps(owner, units, n) == AllLanes(owner, chunks, Place(Costs(chunks), n), n)
  {
    var chunks := SortedChunks(units, n);
    var place := Place(Costs(chunks), n);
    PackedChunks(owner, units, n);
    PackedIsOk(owner, units, n);
    forall L | 0 <= L < n
      ensures PackedSteps(owner, units, n)[L] == LaneSteps(owner, chunks, place, L)
    {
      LaneEntriesSteps(owner, chunks, place, L);
    }
  }

  /** Every interleaving of the packed lanes contains each requested tile exactly once, and
      never shows in order a pair that the chunks avoid. */
  lemma PackedWeave(owner: seq<nat>, units: seq<Unit>, n: pos, sched: seq<nat>, bad: (Step, Step) -> bool)
    requires UnitsOk(owner, units)
    requires PackedOk(owner, units, n) && ValidSched(PackedSteps(owner, units, n), sched)
    requires ChunksOk(owner, SortedChunks(units, n)) && Avoided(owner, SortedChunks(units, n), bad)
    ensures var w := Weave(PackedSteps(owner, units, n), sched);
            && multiset(w) == UnitBag(owner, units, 0)
            && Clean(w, bad)
  {
    var chunks := SortedChunks(units, n);
    var place := Place(Costs(chunks), n);
    PackedStepsAre(owner, units, n);
    PackedChunks(owner, units, n);
    var lanes := AllLanes(owner, chunks, place, n);
    AllLanesBag(owner, chunks, place, n);
    WeaveBag(lanes, sched);
    forall L, R | 0 <= L < n && 0 <= R < n && L != R
      ensures CleanPair(lanes[L], lanes[R], bad)
    {
      CrossLaneAvoids(owner, chunks, place, L, R, bad);
    }
    forall L | 0 <= L < n
      ensures Clean(lanes[L], bad)
    {
      LaneAvoids(owner, chunks, place, L, bad);
    }
    WeaveAvoids(lanes, sched, bad);
  }
}
