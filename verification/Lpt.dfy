/** Graham's bound for the packing: longest-first list scheduling onto n lanes finishes within
    4/3 - 1/(3n) of any other assignment of the same chunks. */
module Lpt {
  import opened Arith
  import opened Packing

  function Sum(w: seq<real>): real {
    if w == [] then 0.0 else Sum(w[..|w| - 1]) + w[|w| - 1]
  }

  /** The loads of the first `n` lanes, added up. */
  function LoadSum(w: seq<real>, place: seq<nat>, n: nat): real
    requires |w| == |place|
  {
    if n == 0 then 0.0 else LoadSum(w, place, n - 1) + Load(w, place, n - 1)
  }

  lemma {:induction false} LoadSumStep(w: seq<real>, place: seq<nat>, n: nat)
    requires |w| == |place| > 0
    ensures var k := |w| - 1;
            LoadSum(w, place, n) == LoadSum(w[..k], place[..k], n) + if place[k] < n then w[k] else 0.0
  {
    if n == 0 {
    } else {
      LoadSumStep(w, place, n - 1);
    }
  }

  lemma {:induction false} LoadSumIsSum(w: seq<real>, place: seq<nat>, n: nat)
    requires |w| == |place| && forall x | 0 <= x < |place| :: place[x] < n
    ensures LoadSum(w, place, n) == Sum(w)
  {
    if w == [] {
      ZeroLoads(n);
    } else {
      LoadSumStep(w, place, n);
      LoadSumIsSum(w[..|w| - 1], place[..|w| - 1], n);
    }
  }

  lemma {:induction false} ZeroLoads(n: nat)
    ensures LoadSum([], [], n) == 0.0
  {
    if n == 0 {
    } else {
      ZeroLoads(n - 1);
    }
  }

  function Count(place: seq<nat>, lane: nat): nat {
    if place == [] then 0
    else Count(place[..|place| - 1], lane) + if place[|place| - 1] == lane then 1 else 0
  }

  /** When all weights on a lane agree, its load is that weight times its job count. */
  lemma {:induction false} LoadConstant(w: seq<real>, place: seq<nat>, lane: nat, v: real)
    requires |w| == |place| && forall x | 0 <= x < |w| && place[x] == lane :: w[x] == v
    ensures Load(w, place, lane) == Count(place, lane) as real * v
  {
    if w == [] {
    } else {
      LoadConstant(w[..|w| - 1], place[..|w| - 1], lane, v);
    }
  }

  lemma {:induction false} EmptyLane(w: seq<real>, place: seq<nat>, lane: nat)
    requires |w| == |place| && Count(place, lane) == 0
    ensures Load(w, place, lane) == 0.0
  {
    if w == [] {
    } else {
      EmptyLane(w[..|w| - 1], place[..|w| - 1], lane);
    }
  }

  lemma {:induction false} LoadAbove(w: seq<real>, place: seq<nat>, lane: nat, t: real)
    requires |w| == |place| && forall x | 0 <= x < |w| :: w[x] > t
    ensures Load(w, place, lane) >= Count(place, lane) as real * t
    ensures Count(place, lane) > 0 ==> Load(w, place, lane) > Count(place, lane) as real * t
  {
    if w == [] {
    } else {
      LoadAbove(w[..|w| - 1], place[..|w| - 1], lane, t);
    }
  }

  lemma {:induction false} LoadNonNegative(w: seq<real>, place: seq<nat>, lane: nat)
    requires |w| == |place| && forall x | 0 <= x < |w| :: w[x] >= 0.0
    ensures Load(w, place, lane) >= 0.0
  {
    if w == [] {
    } else {
      LoadNonNegative(w[..|w| - 1], place[..|w| - 1], lane);
    }
  }

  lemma {:induction false} LoadCovers(w: seq<real>, place: seq<nat>, x: nat)
    requires |w| == |place| && x < |w| && forall y | 0 <= y < |w| :: w[y] >= 0.0
    ensures Load(w, place, place[x]) >= w[x]
    ensures Count(place, place[x]) >= 1
  {
    var k := |w| - 1;
    LoadNonNegative(w[..k], place[..k], place[x]);
    if x >= k {
    } else {
      LoadCovers(w[..k], place[..k], x);
    }
  }

  lemma {:induction false} LoadCoversTwo(w: seq<real>, place: seq<nat>, x: nat, y: nat)
    requires |w| == |place| && x < y < |w| && place[x] == place[y] && forall z | 0 <= z < |w| :: w[z] >= 0.0
    ensures Load(w, place, place[x]) >= w[x] + w[y]
  {
    var k := |w| - 1;
    if y == k {
      LoadCovers(w[..k], place[..k], x);
    } else {
      LoadCoversTwo(w[..k], place[..k], x, y);
    }
  }

  lemma {:induction false} SecondJob(place: seq<nat>, x: nat)
    returns (y: nat)
    requires x < |place| && Count(place, place[x]) >= 2
    ensures y < |place| && y != x && place[y] == place[x]
  {
    var k := |place| - 1;
    if x == k {
      y := SomeJob(place[..k], place[x]);
    } else if place[k] == place[x] {
      y := k;
    } else {
      y := SecondJob(place[..k], x);
    }
  }

  lemma {:induction false} SomeJob(place: seq<nat>, lane: nat)
    returns (y: nat)
    requires Count(place, lane) >= 1
    ensures y < |place| && place[y] == lane
  {
    var k := |place| - 1;
    if place[k] == lane {
      y := k;
    } else {
      y := SomeJob(place[..k], lane);
    }
  }

  // ----- the two cases of the bound ------------------------------------------------------

  predicate NonIncreasing(w: seq<real>) {
    && (forall x, y | 0 <= x < y < |w| :: w[x] >= w[y])
    && (forall x | 0 <= x < |w| :: w[x] >= 0.0)
  }

  /** `place` keeps each of the `n` lanes at or below `limit`. */
  predicate Fits(w: seq<real>, place: seq<nat>, n: nat, limit: real) {
    && |w| == |place|
    && (forall x | 0 <= x < |place| :: place[x] < n)
    && (forall L | 0 <= L < n :: Load(w, place, L) <= limit)
  }

  lemma FitsPrefix(w: seq<real>, place: seq<nat>, n: nat, limit: real)
    requires Fits(w, place, n, limit) && w != [] && NonIncreasing(w)
    ensures Fits(w[..|w| - 1], place[..|w| - 1], n, limit)
  {
    var k := |w| - 1;
    forall L: nat | L < n
      ensures Load(w[..k], place[..k], L) <= limit
    {
      assert Load(w, place, L) <= limit;
    }
  }

  /** `n` lanes of load `low` are at most `total`. */
  predicate AtMost(n: real, low: real, total: real) { n * low <= total }

  /** `n` lanes of load `high` hold `total`. */
  predicate Holds(n: real, high: real, total: real) { total <= n * high }

  predicate ShortBound(n: real, load: real, p: real, t: real) {
    n * load <= n * t + (n - 1.0) * p
  }

  lemma ShortArithmetic(n: real, low: real, p: real, t: real, before: real)
    requires AtMost(n, low, before) && Holds(n, t, before + p)
    ensures ShortBound(n, low + p, p, t)
  {
    assert n * (low + p) == n * low + n * p;
    assert (n - 1.0) * p == n * p - p;
  }

  /** The lane that list scheduling picks for the last weight, and its load before that. */
  function PickedLoad(w: seq<real>, n: pos): real
    requires w != []
  {
    var before := Place(w[..|w| - 1], n);
    Load(w[..|w| - 1], before, ArgMin(Loads(w[..|w| - 1], before, n)))
  }

  lemma PickedIsLeast(w: seq<real>, n: pos)
    requires w != []
    ensures var k := |w| - 1; forall L: nat | L < n :: PickedLoad(w, n) <= Load(w[..k], Place(w[..k], n), L)
  {
    var k := |w| - 1;
    var loads := Loads(w[..k], Place(w[..k], n), n);
    forall L: nat | L < n
      ensures PickedLoad(w, n) <= Load(w[..k], Place(w[..k], n), L)
    {
      assert loads[ArgMin(loads)] <= loads[L];
    }
  }

  lemma AverageBelow(w: seq<real>, n: pos)
    requires w != []
    ensures AtMost(n as real, PickedLoad(w, n), Sum(w[..|w| - 1]))
  {
    hide PickedLoad, Place, Load, LoadSum, Sum, AtMost;
    var before := w[..|w| - 1];
    LoadSumIsSum(before, Place(before, n), n);
    PickedIsLeast(w, n);
    LoadSumAtLeast(before, Place(before, n), n, PickedLoad(w, n));
  }

  lemma SumBelow(w: seq<real>, best: seq<nat>, n: nat, t: real)
    requires Fits(w, best, n, t)
    ensures Holds(n as real, t, Sum(w))
  {
    hide Load, LoadSum, Sum, Holds;
    LoadSumIsSum(w, best, n);
    LoadSumAtMost(w, best, n, t);
  }

  lemma SumLast(w: seq<real>)
    requires w != []
    ensures Sum(w) == Sum(w[..|w| - 1]) + w[|w| - 1]
  {
  }

  /** A short last job: the least loaded lane is at most the average of the others. */
  lemma ShortJob(w: seq<real>, n: pos, best: seq<nat>, t: real)
    requires w != [] && Fits(w, best, n, t)
    ensures ShortBound(n as real, PickedLoad(w, n) + w[|w| - 1], w[|w| - 1], t)
  {
    hide Fits, PickedLoad, Sum, AtMost, Holds, ShortBound;
    SumLast(w);
    AverageBelow(w, n);
    SumBelow(w, best, n, t);
    ShortArithmetic(n as real, PickedLoad(w, n), w[|w| - 1], t, Sum(w[..|w| - 1]));
  }

  lemma {:induction false} LoadSumAtLeast(w: seq<real>, place: seq<nat>, n: nat, low: real)
    requires |w| == |place| && forall L: nat | L < n :: low <= Load(w, place, L)
    ensures AtMost(n as real, low, LoadSum(w, place, n))
  {
    if n == 0 {
    } else {
      LoadSumAtLeast(w, place, n - 1, low);
      assert n as real * low == (n - 1) as real * low + low;
    }
  }

  lemma {:induction false} LoadSumAtMost(w: seq<real>, place: seq<nat>, n: nat, high: real)
    requires |w| == |place| && forall L: nat | L < n :: Load(w, place, L) <= high
    ensures Holds(n as real, high, LoadSum(w, place, n))
  {
    if n == 0 {
    } else {
      LoadSumAtMost(w, place, n - 1, high);
      assert n as real * high == (n - 1) as real * high + high;
    }
  }

  /** Weight 2 for a job that is alone on its lane in `place`, weight 1 for every other. */
  function Lonely(place: seq<nat>, x: nat): real
    requires x < |place|
  {
    if Count(place, place[x]) == 1 then 2.0 else 1.0
  }

  function Weights(place: seq<nat>): seq<real> {
    seq(|place|, x requires 0 <= x < |place| => Lonely(place, x))
  }

  /** Lanes with one or two jobs each carry lonely-weight exactly 2. */
  lemma PairsWeigh(place: seq<nat>, n: nat)
    requires forall x | 0 <= x < |place| :: place[x] < n
    requires forall L | 0 <= L < n :: 1 <= Count(place, L) <= 2
    ensures Sum(Weights(place)) == n as real * 2.0
  {
    forall L | 0 <= L < n
      ensures Load(Weights(place), place, L) == 2.0
    {
      LoadConstant(Weights(place), place, L, if Count(place, L) == 1 then 2.0 else 1.0);
    }
    LoadSumIsSum(Weights(place), place, n);
    LoadSumAtLeast(Weights(place), place, n, 2.0);
    LoadSumAtMost(Weights(place), place, n, 2.0);
  }

  lemma ThirdTimes(c: nat, t: real)
    requires c >= 3 && t >= 0.0
    ensures c as real * (t / 3.0) >= t
  {
    assert c as real * (t / 3.0) == 3.0 * (t / 3.0) + (c as real - 3.0) * (t / 3.0);
  }

  /** Jobs longer than a third of the limit fit at most twice on a lane. */
  lemma AtMostTwo(w: seq<real>, place: seq<nat>, lane: nat, t: real)
    requires |w| == |place| && t >= 0.0 && Load(w, place, lane) <= t
    requires forall x | 0 <= x < |w| :: w[x] > t / 3.0
    ensures Count(place, lane) <= 2
  {
    LoadAbove(w, place, lane, t / 3.0);
    if Count(place, lane) >= 3 {
      ThirdTimes(Count(place, lane), t);
    }
  }

  lemma Alone(w: seq<real>, best: seq<nat>, x: nat, t: real)
    requires |w| == |best| && x < |w| && Load(w, best, best[x]) <= t
    requires forall y | 0 <= y < |w| :: w[y] >= 0.0 && (y != x ==> w[x] + w[y] > t)
    ensures Count(best, best[x]) == 1
  {
    LoadCoversCount(best, x);
    if Count(best, best[x]) >= 2 {
      var y := SecondJob(best, x);
      LoadCoversTwo(w, best, if x < y then x else y, if x < y then y else x);
    }
  }

  /** In an assignment that fits, where a lonely job can share its lane with no other job, a
      lane has at most two jobs and so lonely-weight at most 2. */
  lemma RivalWeighs(w: seq<real>, best: seq<nat>, n: nat, t: real, lonely: seq<real>)
    requires Fits(w, best, n, t) && |lonely| == |w| && t >= 0.0
    requires forall x | 0 <= x < |w| :: w[x] > t / 3.0 && lonely[x] in {1.0, 2.0}
    requires forall x, y | 0 <= x < |w| && 0 <= y < |w| && x != y && lonely[x] == 2.0 :: w[x] + w[y] > t
    ensures Sum(lonely) <= n as real * 2.0
  {
    forall L: nat | L < n
      ensures Load(lonely, best, L) <= 2.0
    {
      if x :| 0 <= x < |w| && best[x] == L && lonely[x] == 2.0 {
        Alone(w, best, x, t);
        LoadConstantOrEmpty(lonely, best, L, x);
      } else {
        AtMostTwo(w, best, L, t);
        LoadConstant(lonely, best, L, 1.0);
      }
    }
    LoadSumIsSum(lonely, best, n);
    LoadSumAtMost(lonely, best, n, 2.0);
  }

  lemma LoadConstantOrEmpty(w: seq<real>, place: seq<nat>, lane: nat, x: nat)
    requires |w| == |place| && x < |w| && place[x] == lane && Count(place, lane) <= 1
    ensures Load(w, place, lane) == w[x]
  {
    forall y | 0 <= y < |w| && place[y] == lane
      ensures w[y] == w[x]
    {
      if y != x {
        CountTwo(place, if x < y then x else y, if x < y then y else x);
      }
    }
    LoadConstant(w, place, lane, w[x]);
    LoadCoversCount(place, x);
  }

  lemma {:induction false} LoadCoversCount(place: seq<nat>, x: nat)
    requires x < |place|
    ensures Count(place, place[x]) >= 1
  {
    if x >= |place| - 1 {
    } else {
      LoadCoversCount(place[..|place| - 1], x);
    }
  }

  lemma {:induction false} CountTwo(place: seq<nat>, x: nat, y: nat)
    requires x < y < |place| && place[x] == place[y]
    ensures Count(place, place[x]) >= 2
  {
    var k := |place| - 1;
    if y == k {
      LoadCoversCount(place[..k], x);
    } else {
      CountTwo(place[..k], x, y);
    }
  }

  /** A long last job: if it overflowed, the lonely weights would add up to 2n + 1 in one
      assignment and to at most 2n in the other. */
  lemma LongJob(w: seq<real>, n: pos, best: seq<nat>, t: real)
    requires w != [] && NonIncreasing(w) && Fits(w, best, n, t)
    requires w[|w| - 1] > t / 3.0 && t >= 0.0
    requires Fits(w[..|w| - 1], Place(w[..|w| - 1], n), n, t)
    ensures PickedLoad(w, n) + w[|w| - 1] <= t
  {
    var k := |w| - 1;
    var place := Place(w[..k], n);
    if PickedLoad(w, n) + w[k] > t {
      PickedIsLeast(w, n);
      LoadCovers(w, best, k);
      forall L: nat | L < n
        ensures 1 <= Count(place, L) <= 2
      {
        AtMostTwo(w[..k], place, L, t);
        if Count(place, L) == 0 {
          EmptyLane(w[..k], place, L);
        }
      }
      var lonely := Weights(place) + [1.0];
      forall x, y | 0 <= x < |w| && 0 <= y < |w| && x != y && lonely[x] == 2.0
        ensures w[x] + w[y] > t
      {
        LoadConstantOrEmpty(w[..k], place, place[x], x);
      }
      assert lonely[..k] == Weights(place);
      PairsWeigh(place, n);
      RivalWeighs(w, best, n, t, lonely);
    }
  }

  /** Every lane is at most (4n - 1)/(3n) times `t`. */
  predicate Near(w: seq<real>, place: seq<nat>, n: pos, t: real) {
    |w| == |place| && forall L: nat | L < n :: NearLane(w, place, n, t, L)
  }

  predicate NearLane(w: seq<real>, place: seq<nat>, n: pos, t: real, lane: nat)
    requires |w| == |place|
  {
    Below(n as real, Load(w, place, lane), t)
  }

  predicate Below(n: real, load: real, t: real) {
    3.0 * n * load <= (4.0 * n - 1.0) * t
  }

  lemma FitArithmetic(n: real, load: real, t: real)
    requires n >= 1.0 && load <= t && t >= 0.0
    ensures Below(n, load, t)
  {
    ScaleUp(n, load, t);
    ScaleUp(n - 1.0, 0.0, t);
    assert 3.0 * n * load == 3.0 * (n * load);
    assert (4.0 * n - 1.0) * t == 3.0 * (n * t) + (n - 1.0) * t;
  }

  lemma FitsIsNear(w: seq<real>, place: seq<nat>, n: pos, t: real)
    requires Fits(w, place, n, t) && t >= 0.0
    ensures Near(w, place, n, t)
  {
    forall L: nat | L < n
      ensures NearLane(w, place, n, t, L)
    {
      FitArithmetic(n as real, Load(w, place, L), t);
    }
  }

  lemma ShortArithmeticBound(n: real, load: real, p: real, t: real)
    requires n >= 1.0 && p <= t / 3.0 && ShortBound(n, load, p, t)
    ensures Below(n, load, t)
  {
    ScaleUp(n - 1.0, p, t / 3.0);
    assert 3.0 * n * load == 3.0 * (n * load);
    assert (n - 1.0) * (t / 3.0) * 3.0 == (n - 1.0) * t;
    assert (4.0 * n - 1.0) * t == 3.0 * (n * t) + (n - 1.0) * t;
  }

  lemma NearStep(w: seq<real>, n: pos, t: real)
    requires w != [] && Near(w[..|w| - 1], Place(w[..|w| - 1], n), n, t)
    requires Below(n as real, PickedLoad(w, n) + w[|w| - 1], t)
    ensures Near(w, Place(w, n), n, t)
  {
    var k := |w| - 1;
    forall L: nat | L < n
      ensures NearLane(w, Place(w, n), n, t, L)
    {
      assert NearLane(w[..k], Place(w[..k], n), n, t, L);
      PlaceLoad(w, n, L);
    }
  }

  lemma ShortCase(w: seq<real>, n: pos, best: seq<nat>, t: real)
    requires w != [] && Fits(w, best, n, t) && w[|w| - 1] <= t / 3.0
    requires Near(w[..|w| - 1], Place(w[..|w| - 1], n), n, t)
    ensures Near(w, Place(w, n), n, t)
  {
    hide Fits, Near, PickedLoad, Place, ShortBound, Below;
    ShortJob(w, n, best, t);
    ShortArithmeticBound(n as real, PickedLoad(w, n) + w[|w| - 1], w[|w| - 1], t);
    NearStep(w, n, t);
  }

  lemma LongCase(w: seq<real>, n: pos, best: seq<nat>, t: real)
    requires w != [] && NonIncreasing(w) && Fits(w, best, n, t)
    requires w[|w| - 1] > t / 3.0 && t >= 0.0
    requires Fits(w[..|w| - 1], Place(w[..|w| - 1], n), n, t)
    ensures Fits(w, Place(w, n), n, t)
  {
    LongJob(w, n, best, t);
    forall L: nat | L < n
      ensures Load(w, Place(w, n), L) <= t
    {
      PlaceLoad(w, n, L);
    }
  }

  /** The bound: list scheduling comes within (4n - 1)/(3n) of any limit that some assignment
      meets; and while all jobs are longer than a third of that limit, it meets the limit. */
  lemma {:induction false} ListScheduleBound(w: seq<real>, n: pos, best: seq<nat>, t: real)
    requires NonIncreasing(w) && Fits(w, best, n, t) && t >= 0.0
    ensures Near(w, Place(w, n), n, t)
    ensures (w != [] ==> w[|w| - 1] > t / 3.0) ==> Fits(w, Place(w, n), n, t)
  {
    if w == [] {
      FitsIsNear(w, [], n, t);
    } else {
      var k := |w| - 1;
      FitsPrefix(w, best, n, t);
      ListScheduleBound(w[..k], n, best[..k], t);
      if w[k] > t / 3.0 {
        assert k > 0 ==> w[..k][k - 1] >= w[k];
        LongCase(w, n, best, t);
        FitsIsNear(w, Place(w, n), n, t);
      } else {
        ShortCase(w, n, best, t);
      }
    }
  }

  lemma ScaleUp(c: real, x: real, y: real)
    requires c >= 0.0 && x <= y
    ensures c * x <= c * y
  {
  }

  lemma PlaceLoad(w: seq<real>, n: pos, lane: nat)
    requires w != [] && lane < n
    ensures var k := |w| - 1;
            Load(w, Place(w, n), lane) == Load(w[..k], Place(w[..k], n), lane)
            || Load(w, Place(w, n), lane) == PickedLoad(w, n) + w[k]
  {
    var k := |w| - 1;
    assert Place(w, n)[..k] == Place(w[..k], n);
  }

  /** Graham's bound for the scheduler's own packing of any units with non-negative costs. */
  lemma PackingBound(units: seq<Unit>, n: pos, best: seq<nat>, t: real)
    requires forall x | 0 <= x < |units| :: units[x].cost >= 0.0
    requires t >= 0.0 && Fits(Costs(SortedChunks(units, n)), best, n, t)
    ensures var costs := Costs(SortedChunks(units, n)); Near(costs, Place(costs, n), n, t)
  {
    var chunks := SortedChunks(units, n);
    SortDescending(PartsOfAll(units, 0, n, Divisor(units)));
    ChunkCostsNonNegative(units, n);
    assert NonIncreasing(Costs(chunks));
    ListScheduleBound(Costs(chunks), n, best, t);
  }

  predicate NonNegative(chunks: seq<Chunk>) {
    forall x | 0 <= x < |chunks| :: chunks[x].cost >= 0.0
  }

  lemma ChunkCostsNonNegative(units: seq<Unit>, n: pos)
    requires forall x | 0 <= x < |units| :: units[x].cost >= 0.0
    ensures NonNegative(SortedChunks(units, n))
  {
    var parts, chunks := PartsOfAll(units, 0, n, Divisor(units)), SortedChunks(units, n);
    PartCosts(units, 0, n, Divisor(units));
    forall x | 0 <= x < |chunks|
      ensures chunks[x].cost >= 0.0
    {
      assert chunks[x] in multiset(chunks);
      var z :| 0 <= z < |parts| && parts[z] == chunks[x];
    }
  }

  lemma {:induction false} PartCosts(units: seq<Unit>, from: nat, n: nat, total: real)
    requires from <= |units| && total != 0.0 && forall x | 0 <= x < |units| :: units[x].cost >= 0.0
    ensures NonNegative(PartsOfAll(units, from, n, total))
    decreases |units| - from
  {
    if from >= |units| {
    } else {
      PartCosts(units, from + 1, n, total);
      UnitPartCosts(from, units[from], 0, Fanout(units[from], n, total));
    }
  }

  lemma {:induction false} UnitPartCosts(uid: nat, u: Unit, j: nat, k: nat)
    requires j <= k && (k > 0 ==> u.tiles > 0) && u.cost >= 0.0
    ensures NonNegative(PartsFrom(uid, u, j, k))
    decreases k - j
  {
    if j >= k {
    } else {
      var rest := PartsFrom(uid, u, j + 1, k);
      UnitPartCosts(uid, u, j + 1, k);
      PartCost(uid, u, j, k);
      NonNegativeCons(PartOf(uid, u, j, k), rest);
    }
  }

  lemma NonNegativeCons(c: Chunk, rest: seq<Chunk>)
    requires c.cost >= 0.0 && NonNegative(rest)
    ensures NonNegative([c] + rest)
  {
  }

  lemma PartCost(uid: nat, u: Unit, j: nat, k: pos)
    requires u.tiles > 0 && u.cost >= 0.0
    ensures PartOf(uid, u, j, k).cost >= 0.0
  {
    CutMonotone(u.tiles, j, k);
    ShareNonNegative(u.cost, Cut(u.tiles, j + 1, k) - Cut(u.tiles, j, k), u.tiles);
  }

  lemma ShareNonNegative(cost: real, width: nat, tiles: pos)
    requires cost >= 0.0
    ensures cost * width as real / tiles as real >= 0.0
  {
    ScaleUp(cost, 0.0, width as real);
    QuotientNonNegative(cost * width as real, tiles as real);
  }

  lemma QuotientNonNegative(x: real, y: real)
    requires x >= 0.0 && y > 0.0
    ensures x / y >= 0.0
  {
  }
}
