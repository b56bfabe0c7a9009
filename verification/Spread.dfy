/** With enough lanes every tile of a unit that costs something gets a lane of its own, and any
    lane may run before all others. */
module Spread {
  import opened Arith
  import opened Interleave
  import opened Streams
  import opened Packing
  import opened Lpt

  // ----- one tile for each chunk -----------------------------------------------------------------

  function TileTotal(units: seq<Unit>, from: nat): nat
    requires from <= |units|
    decreases |units| - from
  {
    if from == |units| then 0 else units[from].tiles + TileTotal(units, from + 1)
  }

  lemma {:induction false} PartsCounted(uid: nat, u: Unit, j: nat, k: nat)
    requires j <= k && (k > 0 ==> u.tiles > 0)
    ensures |PartsFrom(uid, u, j, k)| == k - j
    decreases k - j
  {
    if j >= k {
    } else {
      PartsCounted(uid, u, j + 1, k);
    }
  }

  lemma {:induction false} FewChunks(units: seq<Unit>, from: nat, n: nat, total: real)
    requires from <= |units| && total != 0.0
    ensures |PartsOfAll(units, from, n, total)| <= TileTotal(units, from)
    decreases |units| - from
  {
    if from >= |units| {
    } else {
      PartsCounted(from, units[from], 0, Fanout(units[from], n, total));
      FewChunks(units, from + 1, n, total);
    }
  }

  lemma {:induction false} HasPart(uid: nat, u: Unit, j: nat, k: nat, t: nat)
    requires j <= t < k && u.tiles > 0
    ensures PartOf(uid, u, t, k) in PartsFrom(uid, u, j, k)
    decreases k - j
  {
    if j >= t {
    } else {
      HasPart(uid, u, j + 1, k, t);
    }
  }

  lemma {:induction false} HasPartOfUnit(units: seq<Unit>, from: nat, n: nat, total: real, uid: nat, t: nat)
    requires from <= uid < |units| && total != 0.0 && t < Fanout(units[uid], n, total)
    ensures units[uid].tiles > 0
    ensures PartOf(uid, units[uid], t, Fanout(units[uid], n, total)) in PartsOfAll(units, from, n, total)
    decreases |units| - from
  {
    if from == uid {
      HasPart(uid, units[uid], 0, Fanout(units[uid], n, total), t);
    } else {
      HasPartOfUnit(units, from + 1, n, total, uid, t);
    }
  }

  /** Lanes enough for one tile a chunk: the unit fans out all the way. */
  predicate Enough(units: seq<Unit>, uid: nat, n: nat)
    requires uid < |units|
  {
    n > TileTotal(units, 0) && Divisor(units) != 0.0 && Fanout(units[uid], n, Divisor(units)) == units[uid].tiles
  }

  lemma CeilAtLeast(x: real, k: nat)
    requires k as real <= x
    ensures k <= Ceil(x)
  {
  }

  lemma ScaledQuotient(n: real, cost: real, total: real, r: real, k: real)
    requires cost > 0.0 && total > 0.0 && r == k * total / cost && n >= r
    ensures n * cost / total >= k
  {
    assert r * cost == k * total;
    ScaleUp(cost, r, n);
    assert n * cost >= k * total;
    QuotientAtLeast(n * cost, total, k);
  }

  lemma QuotientAtLeast(x: real, y: real, k: real)
    requires y > 0.0 && x >= k * y
    ensures x / y >= k
  {
    var q := x / y;
    assert q * y == x;
    if q < k {
      StrictScale(y, q, k);
    }
  }

  lemma StrictScale(c: real, x: real, y: real)
    requires c > 0.0 && x < y
    ensures x * c < y * c
  {
  }

  lemma {:induction false} TotalAtLeast(units: seq<Unit>, uid: nat)
    requires uid < |units| && forall x | 0 <= x < |units| :: units[x].cost >= 0.0
    ensures TotalCost(units) >= units[uid].cost >= 0.0
  {
    TotalNonNegative(units[1..]);
    if uid == 0 {
    } else {
      TotalAtLeast(units[1..], uid - 1);
    }
  }

  lemma {:induction false} TotalNonNegative(units: seq<Unit>)
    requires forall x | 0 <= x < |units| :: units[x].cost >= 0.0
    ensures TotalCost(units) >= 0.0
  {
    if units == [] {
    } else {
      TotalNonNegative(units[1..]);
    }
  }

  lemma FansOut(u: Unit, n: nat, total: real)
    requires total > 0.0 && n as real * u.cost / total >= u.tiles as real
    ensures Fanout(u, n, total) == u.tiles
  {
    CeilAtLeast(n as real * u.cost / total, u.tiles);
  }

  lemma Above(r: real, least: nat) returns (n: pos)
    ensures n > least && n as real >= r
  {
    var floor := r.Floor + 1;
    n := least + 1 + if floor > 0 then floor else 0;
  }

  /** Some lane count is enough. */
  lemma EnoughLanes(units: seq<Unit>, uid: nat) returns (n: pos)
    requires uid < |units| && units[uid].cost > 0.0 && units[uid].tiles > 0
    requires forall x | 0 <= x < |units| :: units[x].cost >= 0.0
    ensures Enough(units, uid, n)
  {
    hide TileTotal, TotalCost, Fanout;
    TotalAtLeast(units, uid);
    var u, total := units[uid], Divisor(units);
    var r := u.tiles as real * total / u.cost;
    n := Above(r, TileTotal(units, 0));
    ScaledQuotient(n as real, u.cost, total, r, u.tiles as real);
    FansOut(u, n, total);
  }

  // ----- chunks that cost something do not share a lane ------------------------------------------

  lemma {:induction false} FreeLane(place: seq<nat>, n: nat) returns (lane: nat)
    requires |place| < n
    ensures lane < n && lane !in place
  {
    if lane' :| 0 <= lane' < n && lane' !in place {
      lane := lane';
    } else {
      SubsetOfSeq(Numbers(n), place);
      assert false;
    }
  }

  function Numbers(n: nat): (all: set<nat>)
    ensures |all| == n && forall L: nat :: L in all <==> L < n
  {
    if n == 0 then {} else Numbers(n - 1) + {n - 1}
  }

  lemma {:induction false} SubsetOfSeq(s: set<nat>, place: seq<nat>)
    requires forall x | x in s :: x in place
    ensures |s| <= |place|
  {
    if place != [] {
      var k := |place| - 1;
      var rest := s - {place[k]};
      SubsetOfSeq(rest, place[..k]);
      assert |s| <= |rest| + 1;
    } else {
      assert s == {};
    }
  }

  lemma {:induction false} UnusedLane(w: seq<real>, place: seq<nat>, lane: nat)
    requires |w| == |place| && lane !in place
    ensures Load(w, place, lane) == 0.0
  {
    if w == [] {
    } else {
      UnusedLane(w[..|w| - 1], place[..|w| - 1], lane);
    }
  }

  lemma {:induction false} UsedLane(w: seq<real>, place: seq<nat>, a: nat)
    requires |w| == |place| && a < |w| && forall x | 0 <= x < |w| :: w[x] >= 0.0
    ensures Load(w, place, place[a]) >= w[a]
  {
    var k := |w| - 1;
    if a < k {
      UsedLane(w[..k], place[..k], a);
    } else {
      LoadsNonNegative(w[..k], place[..k], place[a]);
    }
  }

  lemma {:induction false} LoadsNonNegative(w: seq<real>, place: seq<nat>, lane: nat)
    requires |w| == |place| && forall x | 0 <= x < |w| :: w[x] >= 0.0
    ensures Load(w, place, lane) >= 0.0
  {
    if w == [] {
    } else {
      LoadsNonNegative(w[..|w| - 1], place[..|w| - 1], lane);
    }
  }

  lemma {:induction false} OwnLanes(w: seq<real>, n: pos, a: nat, b: nat)
    requires |w| <= n && a < b < |w| && w[a] > 0.0 && forall x | 0 <= x < |w| :: w[x] >= 0.0
    ensures Place(w, n)[a] != Place(w, n)[b]
  {
    var k := |w| - 1;
    var before := Place(w[..k], n);
    if b < k {
      OwnLanes(w[..k], n, a, b);
    } else {
      var free := FreeLane(before, n);
      UnusedLane(w[..k], before, free);
      UsedLane(w[..k], before, a);
      assert Loads(w[..k], before, n)[free] == 0.0;
    }
  }

  // ----- where a tile of the unit is ---------------------------------------------------------------

  lemma {:induction false} LaneHasChunk(owner: seq<nat>, chunks: seq<Chunk>, place: seq<nat>, q: nat, e: Step)
    requires |chunks| == |place| && ChunksOk(owner, chunks) && q < |chunks| && e in ChunkSteps(owner, chunks[q])
    ensures e in LaneSteps(owner, chunks, place, place[q])
  {
    var k := |chunks| - 1;
    if q >= k {
    } else {
      LaneHasChunk(owner, chunks[..k], place[..k], q, e);
    }
  }

  lemma {:induction false} ChainHas(owner: seq<nat>, tids: seq<nat>, lo: nat, hi: nat, x: nat, t: nat)
    requires TidsOk(owner, tids) && x < |tids| && lo <= t < hi
    ensures Step(owner[tids[x]], t) in ChainSteps(owner, tids, lo, hi)
  {
    if x == 0 {
      assert TileSteps(owner[tids[0]], lo, hi)[t - lo] == Step(owner[tids[0]], t);
    } else {
      ChainHas(owner, tids[1..], lo, hi, x - 1, t);
    }
  }

  /** The chunk that holds tile `t` of the unit and nothing else. */
  lemma TileChunk(units: seq<Unit>, n: pos, uid: nat, t: nat) returns (q: nat)
    requires uid < |units| && Enough(units, uid, n) && t < units[uid].tiles && units[uid].cost > 0.0
    ensures q < |SortedChunks(units, n)|
    ensures var c := SortedChunks(units, n)[q]; c.tids == units[uid].tids && c.lo == t && c.hi == t + 1 && c.cost > 0.0
  {
    var u, total := units[uid], Divisor(units);
    HasPartOfUnit(units, 0, n, total, uid, t);
    var c := PartOf(uid, u, t, u.tiles);
    var parts := PartsOfAll(units, 0, n, total);
    assert c in multiset(parts) && multiset(SortedChunks(units, n)) == multiset(parts);
    q :| 0 <= q < |SortedChunks(units, n)| && SortedChunks(units, n)[q] == c;
    SingleTile(uid, u, t);
  }

  lemma SingleTile(uid: nat, u: Unit, t: nat)
    requires t < u.tiles && u.cost > 0.0
    ensures var c := PartOf(uid, u, t, u.tiles); c.tids == u.tids && c.lo == t && c.hi == t + 1 && c.cost > 0.0
  {
    DivMultiple(t, u.tiles);
    DivMultiple(t + 1, u.tiles);
    assert u.tiles * t == t * u.tiles && u.tiles * (t + 1) == (t + 1) * u.tiles;
    Positive(u.cost, u.tiles as real);
  }

  lemma Positive(x: real, y: real)
    requires x > 0.0 && y > 0.0
    ensures x * 1.0 / y > 0.0
  {
  }

  lemma ChunkCount(units: seq<Unit>, uid: nat, n: nat)
    requires uid < |units| && Enough(units, uid, n)
    ensures |SortedChunks(units, n)| < n
  {
    FewChunks(units, 0, n, Divisor(units));
    var parts := PartsOfAll(units, 0, n, Divisor(units));
    assert |multiset(SortChunks(parts))| == |multiset(parts)|;
  }

  /** Lane `A` runs tile `t` of every task of the unit, in the chunk at `q`. */
  lemma TileLane(owner: seq<nat>, units: seq<Unit>, n: pos, uid: nat, x: nat, t: nat) returns (q: nat, A: nat)
    requires UnitsOk(owner, units) && uid < |units| && Enough(units, uid, n) && units[uid].cost > 0.0
    requires x < |units[uid].tids| && t < units[uid].tiles
    ensures TidsOk(owner, units[uid].tids) && PackedOk(owner, units, n) && |PackedSteps(owner, units, n)| == n && A < n
    ensures Step(owner[units[uid].tids[x]], t) in PackedSteps(owner, units, n)[A]
    ensures q < |SortedChunks(units, n)| && Place(Costs(SortedChunks(units, n)), n)[q] == A
    ensures SortedChunks(units, n)[q].cost > 0.0 && SortedChunks(units, n)[q].lo == t
  {
    hide SortedChunks, Place, Enough, LaneSteps;
    PackedStepsAre(owner, units, n);
    var chunks := SortedChunks(units, n);
    var place := Place(Costs(chunks), n);
    q := TileChunk(units, n, uid, t);
    A := place[q];
    assert UnitOk(owner, units, uid);
    ChainHas(owner, units[uid].tids, t, t + 1, x, t);
    LaneHasChunk(owner, chunks, place, q, Step(owner[units[uid].tids[x]], t));
  }

  /** Two tiles of the unit are on two lanes. */
  lemma TilesApart(owner: seq<nat>, units: seq<Unit>, n: pos, uid: nat, x: nat, s: nat, y: nat, t: nat)
    returns (A: nat, B: nat)
    requires UnitsOk(owner, units) && uid < |units| && Enough(units, uid, n) && units[uid].cost > 0.0
    requires forall z | 0 <= z < |units| :: units[z].cost >= 0.0
    requires x < |units[uid].tids| && y < |units[uid].tids| && s < units[uid].tiles && t < units[uid].tiles && s != t
    ensures PackedOk(owner, units, n) && A < n && B < n && A != B && |PackedSteps(owner, units, n)| == n
    ensures TidsOk(owner, units[uid].tids)
    ensures Step(owner[units[uid].tids[x]], s) in PackedSteps(owner, units, n)[A]
    ensures Step(owner[units[uid].tids[y]], t) in PackedSteps(owner, units, n)[B]
  {
    hide SortedChunks, Place, Enough, PackedOk, TidsOk, UnitsOk, PackedSteps;
    var a, b;
    a, A := TileLane(owner, units, n, uid, x, s);
    b, B := TileLane(owner, units, n, uid, y, t);
    var chunks := SortedChunks(units, n);
    ChunkCount(units, uid, n);
    ChunkCostsNonNegative(units, n);
    if a < b {
      OwnLanes(Costs(chunks), n, a, b);
    } else {
      OwnLanes(Costs(chunks), n, b, a);
    }
  }

  predicate UnitOk(owner: seq<nat>, units: seq<Unit>, uid: nat)
    requires uid < |units|
  {
    TidsOk(owner, units[uid].tids)
  }

  // ----- one lane first ----------------------------------------------------------------------------

  /** A schedule that runs lane `A` to its end before any other moves. */
  lemma {:induction false} LaneFirst(lanes: seq<seq<Step>>, A: nat) returns (sched: seq<nat>, rest: seq<Step>)
    requires A < |lanes|
    ensures ValidSched(lanes, sched) && Weave(lanes, sched) == lanes[A] + rest
    decreases |lanes[A]|
  {
    if lanes[A] == [] {
      sched := LaneByLane(lanes, 0);
      rest := Weave(lanes, sched);
    } else {
      var later;
      later, rest := LaneFirst(Interleave.Advance(lanes, A), A);
      sched := [A] + later;
      assert sched[1..] == later;
      assert lanes[A] == [lanes[A][0]] + lanes[A][1..];
    }
  }

  lemma {:induction false} BagHas(lanes: seq<seq<Step>>, B: nat, e: Step)
    requires B < |lanes| && e in lanes[B]
    ensures e in Bag(lanes)
  {
    if B == 0 {
    } else {
      BagHas(lanes[1..], B - 1, e);
    }
  }

  lemma NotInBoth(lanes: seq<seq<Step>>, A: nat, B: nat, e: Step)
    requires A < |lanes| && B < |lanes| && A != B && e in lanes[B] && Bag(lanes)[e] == 1
    ensures e !in lanes[A]
  {
    BagUpdate(lanes, A, []);
    BagHas(lanes[A := []], B, e);
    assert (Bag(lanes[A := []]) + multiset(lanes[A]))[e] == (Bag(lanes) + multiset([]))[e];
  }

  /** In the run, `a` comes before `b`. */
  ghost predicate Precedes(run: seq<Step>, a: Step, b: Step) {
    exists q :: SplitAt(run, a, b, q)
  }

  predicate SplitAt(run: seq<Step>, a: Step, b: Step, q: nat) {
    q <= |run| && a in run[..q] && b in run[q..]
  }

  /** Of two steps on two lanes either may run first. */
  lemma EitherFirst(lanes: seq<seq<Step>>, A: nat, B: nat, a: Step, b: Step) returns (sched: seq<nat>)
    requires A < |lanes| && B < |lanes| && A != B && a in lanes[A] && b in lanes[B] && Bag(lanes)[b] == 1
    ensures ValidSched(lanes, sched) && Precedes(Weave(lanes, sched), a, b)
  {
    var rest;
    sched, rest := LaneFirst(lanes, A);
    var run, q := Weave(lanes, sched), |lanes[A]|;
    WeaveBag(lanes, sched);
    NotInBoth(lanes, A, B, b);
    assert run[..q] == lanes[A] && run[q..] == rest;
    assert multiset(run) == multiset(lanes[A]) + multiset(rest);
    assert b in multiset(run) && b !in multiset(lanes[A]) && b in multiset(rest);
    assert SplitAt(run, a, b, q);
  }
}
