/** The two-stage reduction: strided accumulation and a halving tree in every tile, then a fold of
    the partial results. */
module Reduction {
  import opened Arith

  datatype Monoid<!T> = Monoid(unit: T, op: (T, T) -> T)

  /** The laws of a commutative monoid, at three values. */
  ghost predicate Laws<T>(m: Monoid<T>, x: T, y: T, z: T) {
    && m.op(m.unit, x) == x
    && m.op(x, y) == m.op(y, x)
    && m.op(m.op(x, y), z) == m.op(x, m.op(y, z))
  }

  ghost predicate Lawful<T(!new)>(m: Monoid<T>) {
    forall x, y, z {:trigger Laws(m, x, y, z)} :: Laws(m, x, y, z)
  }

  /** The plain fold of a[lo..hi]. */
  function Fold<T>(m: Monoid<T>, a: seq<T>, lo: nat, hi: nat): T
    requires lo <= hi <= |a|
    decreases hi - lo
  {
    if lo == hi then m.unit else m.op(Fold(m, a, lo, hi - 1), a[hi - 1])
  }

  function FoldAll<T>(m: Monoid<T>, a: seq<T>): T { Fold(m, a, 0, |a|) }

  lemma {:induction false} FoldSplit<T(!new)>(m: Monoid<T>, a: seq<T>, lo: nat, mid: nat, hi: nat)
    requires Lawful(m) && lo <= mid <= hi <= |a|
    ensures Fold(m, a, lo, hi) == m.op(Fold(m, a, lo, mid), Fold(m, a, mid, hi))
    decreases hi - mid
  {
    var left := Fold(m, a, lo, mid);
    if mid == hi {
      assert Laws(m, left, m.unit, left);
    } else {
      FoldSplit(m, a, lo, mid, hi - 1);
      assert Laws(m, left, Fold(m, a, mid, hi - 1), a[hi - 1]);
    }
  }

  lemma Swap4<T(!new)>(m: Monoid<T>, x: T, y: T, u: T, v: T)
    requires Lawful(m)
    ensures m.op(m.op(x, y), m.op(u, v)) == m.op(m.op(x, u), m.op(y, v))
  {
    assert Laws(m, x, y, m.op(u, v)) && Laws(m, y, u, v) && Laws(m, u, y, v) && Laws(m, x, u, m.op(y, v));
  }

  /** Folding a list after adding its upper half onto its lower half. */
  lemma {:induction false} FoldHalves<T(!new)>(m: Monoid<T>, a: seq<T>, b: seq<T>, s: nat, k: nat)
    requires Lawful(m) && k <= s && 2 * s <= |a| && s <= |b| && forall i | 0 <= i < s :: b[i] == m.op(a[i], a[i + s])
    ensures Fold(m, b, 0, k) == m.op(Fold(m, a, 0, k), Fold(m, a, s, s + k))
  {
    if k == 0 {
      assert Laws(m, m.unit, m.unit, m.unit);
    } else {
      FoldHalves(m, a, b, s, k - 1);
      Swap4(m, Fold(m, a, 0, k - 1), Fold(m, a, s, s + k - 1), a[k - 1], a[k - 1 + s]);
    }
  }

  /** Combining a value into one element combines it into the fold. */
  lemma {:induction false} FoldUpdate<T(!new)>(m: Monoid<T>, a: seq<T>, b: seq<T>, j: nat, v: T, k: nat)
    requires Lawful(m) && k <= |a| == |b| && j < |a| && b == a[j := m.op(a[j], v)]
    ensures Fold(m, b, 0, k) == if j < k then m.op(Fold(m, a, 0, k), v) else Fold(m, a, 0, k)
  {
    if k == 0 {
    } else {
      FoldUpdate(m, a, b, j, v, k - 1);
      var rest := Fold(m, a, 0, k - 1);
      assert Laws(m, rest, a[j], v) && Laws(m, rest, v, a[k - 1]) && Laws(m, v, a[k - 1], v)
          && Laws(m, rest, a[k - 1], v);
    }
  }

  // ----- strided accumulation -----------------------------------------------------------------------

  /** What work item `lid` of `lsz` accumulates of a[lo..hi]. */
  function Strided<T>(m: Monoid<T>, a: seq<T>, lo: nat, hi: nat, lid: nat, lsz: pos): T
    requires lo <= hi <= |a|
    decreases hi - lo
  {
    if lo == hi then m.unit
    else
      var rest := Strided(m, a, lo, hi - 1, lid, lsz);
      if (hi - 1 - lo) % lsz == lid then m.op(rest, a[hi - 1]) else rest
  }

  function Lanes<T>(m: Monoid<T>, a: seq<T>, lo: nat, hi: nat, lsz: pos): (r: seq<T>)
    requires lo <= hi <= |a|
    ensures |r| == lsz && forall lid | 0 <= lid < lsz :: r[lid] == Strided(m, a, lo, hi, lid, lsz)
  {
    seq(lsz, lid requires 0 <= lid < lsz => Strided(m, a, lo, hi, lid, lsz))
  }

  lemma {:induction false} FoldUnits<T(!new)>(m: Monoid<T>, a: seq<T>, k: nat)
    requires Lawful(m) && k <= |a| && forall i | 0 <= i < k :: a[i] == m.unit
    ensures Fold(m, a, 0, k) == m.unit
  {
    if k == 0 {
    } else {
      FoldUnits(m, a, k - 1);
      assert Laws(m, m.unit, m.unit, m.unit);
    }
  }

  /** The work items together have everything. */
  lemma {:induction false} LanesFold<T(!new)>(m: Monoid<T>, a: seq<T>, lo: nat, hi: nat, lsz: pos)
    requires Lawful(m) && lo <= hi <= |a|
    ensures FoldAll(m, Lanes(m, a, lo, hi, lsz)) == Fold(m, a, lo, hi)
    decreases hi - lo
  {
    if lo == hi {
      FoldUnits(m, Lanes(m, a, lo, hi, lsz), lsz);
    } else {
      LanesFold(m, a, lo, hi - 1, lsz);
      var before, after := Lanes(m, a, lo, hi - 1, lsz), Lanes(m, a, lo, hi, lsz);
      var j := (hi - 1 - lo) % lsz;
      assert after == before[j := m.op(before[j], a[hi - 1])];
      FoldUpdate(m, before, after, j, a[hi - 1], lsz);
    }
  }

  predicate OffStride(i: nat, lo: nat, lid: nat, lsz: pos)
    requires lo <= i
  {
    (i - lo) % lsz != lid
  }

  lemma {:induction false} StridedSkips<T>(m: Monoid<T>, a: seq<T>, lo: nat, near: nat, far: nat, lid: nat, lsz: pos)
    requires lo <= near <= far <= |a| && forall i | near <= i < far :: OffStride(i, lo, lid, lsz)
    ensures Strided(m, a, lo, far, lid, lsz) == Strided(m, a, lo, near, lid, lsz)
    decreases far
  {
    if near >= far {
    } else {
      assert OffStride(far - 1, lo, lid, lsz);
      StridedSkips(m, a, lo, near, far - 1, lid, lsz);
    }
  }

  lemma BetweenStrides(q: nat, lid: nat, lsz: pos, d: nat)
    requires lid < lsz && q * lsz + lid < d < q * lsz + lid + lsz
    ensures d % lsz != lid
  {
    var e := d - q * lsz;
    if e < lsz {
      OnStride(q, e, lsz);
    } else {
      assert (q + 1) * lsz == q * lsz + lsz;
      OnStride(q + 1, e - lsz, lsz);
    }
  }

  lemma BeforeFirst(lid: nat, lsz: pos, d: nat)
    requires d < lid < lsz
    ensures d % lsz != lid
  {
  }

  lemma OnStride(q: nat, lid: nat, lsz: pos)
    requires lid < lsz
    ensures (q * lsz + lid) % lsz == lid
  {
    DivAtLeast(q * lsz + lid, q, lsz);
    assert (q + 1) * lsz == q * lsz + lsz;
    DivBelow(q * lsz + lid, q + 1, lsz);
    assert q * lsz + lid == (q * lsz + lid) / lsz * lsz + (q * lsz + lid) % lsz;
  }

  function Least(x: nat, y: nat): nat { if x < y then x else y }

  lemma FirstStride<T>(m: Monoid<T>, a: seq<T>, lo: nat, hi: nat, lid: nat, lsz: pos)
    requires lo <= hi <= |a| && lid < lsz
    ensures Strided(m, a, lo, Least(lo + lid, hi), lid, lsz) == m.unit
  {
    forall j | lo <= j < Least(lo + lid, hi)
      ensures OffStride(j, lo, lid, lsz)
    {
      BeforeFirst(lid, lsz, j - lo);
    }
    StridedSkips(m, a, lo, lo, Least(lo + lid, hi), lid, lsz);
  }

  /** Between two strides a work item has nothing to add. */
  lemma NextStride<T>(m: Monoid<T>, a: seq<T>, lo: nat, hi: nat, lid: nat, lsz: pos, q: nat, i: nat)
    requires lo <= i < hi <= |a| && lid < lsz && i - lo == q * lsz + lid
    ensures Strided(m, a, lo, Least(i + lsz, hi), lid, lsz) == m.op(Strided(m, a, lo, i, lid, lsz), a[i])
    ensures i + lsz - lo == (q + 1) * lsz + lid
  {
    OnStride(q, lid, lsz);
    forall j | i + 1 <= j < Least(i + lsz, hi)
      ensures OffStride(j, lo, lid, lsz)
    {
      BetweenStrides(q, lid, lsz, j - lo);
    }
    StridedSkips(m, a, lo, i + 1, Least(i + lsz, hi), lid, lsz);
    assert (q + 1) * lsz == q * lsz + lsz;
  }

  /** The loop of one work item. */
  method WorkItem<T(!new)>(m: Monoid<T>, a: seq<T>, lo: nat, hi: nat, lid: nat, lsz: pos) returns (acc: T)
    requires lo <= hi <= |a| && lid < lsz
    ensures acc == Strided(m, a, lo, hi, lid, lsz)
  {
    hide Strided;
    acc := m.unit;
    var i := lo + lid;
    ghost var q: nat := 0;
    FirstStride(m, a, lo, hi, lid, lsz);
    while i < hi
      invariant lo <= i && i - lo == q * lsz + lid
      invariant acc == Strided(m, a, lo, Least(i, hi), lid, lsz)
      decreases hi - i
    {
      NextStride(m, a, lo, hi, lid, lsz, q, i);
      acc := m.op(acc, a[i]);
      i := i + lsz;
      q := q + 1;
    }
  }

  // ----- one tile -----------------------------------------------------------------------------------

  predicate IsPowerOfTwo(n: nat) {
    n == 1 || (n > 1 && n % 2 == 0 && IsPowerOfTwo(n / 2))
  }

  lemma TreeStep<T(!new)>(m: Monoid<T>, was: seq<T>, now: seq<T>, s: nat)
    requires Lawful(m) && 2 * s <= |was| == |now| && forall i | 0 <= i < s :: now[i] == m.op(was[i], was[i + s])
    ensures Fold(m, now, 0, s) == Fold(m, was, 0, 2 * s)
  {
    FoldHalves(m, was, now, s, s);
    FoldSplit(m, was, 0, s, 2 * s);
  }

  /** Where a tile's chunk ends. */
  function Bound(n: nat, chunk: pos, tile: nat): nat {
    if tile * chunk + chunk < n then tile * chunk + chunk else n
  }

  /** Every work item accumulates its stride into local memory. */
  method AccumulateAll<T(0, !new)>(m: Monoid<T>, a: seq<T>, lo: nat, hi: nat, ai: array<T>)
    requires Lawful(m) && lo <= hi <= |a| && ai.Length > 0
    modifies ai
    ensures FoldAll(m, ai[..]) == Fold(m, a, lo, hi)
  {
    hide Strided, Fold;
    var lid := 0;
    while lid < ai.Length
      invariant 0 <= lid <= ai.Length
      invariant forall l | 0 <= l < lid :: ai[l] == Strided(m, a, lo, hi, l, ai.Length)
    {
      ai[lid] := WorkItem(m, a, lo, hi, lid, ai.Length);
      lid := lid + 1;
    }
    assert ai[..] == Lanes(m, a, lo, hi, ai.Length);
    LanesFold(m, a, lo, hi, ai.Length);
  }

  lemma FoldOne<T(!new)>(m: Monoid<T>, a: seq<T>)
    requires Lawful(m) && a != []
    ensures Fold(m, a, 0, 1) == a[0]
  {
    assert Fold(m, a, 0, 1) == m.op(Fold(m, a, 0, 0), a[0]);
    assert Laws(m, a[0], a[0], a[0]);
  }

  /** The local values are added up in a tree that halves each round. */
  method HalvingTree<T(!new)>(m: Monoid<T>, ai: array<T>)
    requires Lawful(m) && IsPowerOfTwo(ai.Length)
    modifies ai
    ensures ai.Length > 0 && ai[0] == old(FoldAll(m, ai[..]))
  {
    hide Fold;
    var s := ai.Length / 2;
    ghost var width: nat := ai.Length;
    while s > 0
      invariant 0 < width <= ai.Length && IsPowerOfTwo(width) && s == width / 2
      invariant Fold(m, ai[..], 0, width) == old(FoldAll(m, ai[..]))
      decreases s
    {
      ghost var was := ai[..];
      forall l | 0 <= l < s {
        ai[l] := m.op(ai[l], ai[l + s]);
      }
      TreeStep(m, was, ai[..], s);
      width := s;
      s := s / 2;
    }
    FoldOne(m, ai[..]);
  }

  /** One tile of the first stage. */
  method PartTile<T(0, !new)>(m: Monoid<T>, a: seq<T>, chunk: pos, tile: nat, ai: array<T>) returns (partial: T)
    requires Lawful(m) && IsPowerOfTwo(ai.Length) && tile * chunk <= |a|
    modifies ai
    ensures partial == Fold(m, a, tile * chunk, Bound(|a|, chunk, tile))
  {
    var lo := tile * chunk;
    AccumulateAll(m, a, lo, Least(lo + chunk, |a|), ai);
    HalvingTree(m, ai);
    partial := ai[0];
  }

  // ----- the whole reduction ------------------------------------------------------------------------

  /** One partial result for each chunk, at least one. */
  function Parts(n: nat, chunk: pos): pos {
    if n == 0 then 1 else (n + chunk - 1) / chunk
  }

  lemma PartStarts(n: nat, chunk: pos, tile: nat)
    requires tile < Parts(n, chunk)
    ensures tile * chunk <= n && (tile + 1 == Parts(n, chunk) ==> n <= tile * chunk + chunk)
    ensures tile + 1 < Parts(n, chunk) ==> tile * chunk + chunk <= n
  {
    if n > 0 {
      var q := (n + chunk - 1) / chunk;
      assert n + chunk - 1 == q * chunk + (n + chunk - 1) % chunk;
      MulMonotone(tile + 1, q, chunk);
      assert (tile + 1) * chunk == tile * chunk + chunk;
      if tile + 1 < q {
        MulMonotone(tile + 2, q, chunk);
        assert (tile + 2) * chunk == tile * chunk + chunk + chunk;
      }
    } else {
      assert tile == 0;
    }
  }

  /** Partial results and their combination, on tiles in any order. */
  method Reduce<T(0, !new)>(m: Monoid<T>, a: seq<T>, chunk: pos, lsz: pos, order: seq<nat>) returns (total: T)
    requires Lawful(m) && IsPowerOfTwo(lsz)
    requires (forall x | 0 <= x < |order| :: order[x] < Parts(|a|, chunk))
    requires forall t: nat | t < Parts(|a|, chunk) :: t in order
    ensures total == FoldAll(m, a)
  {
    var parts := seq(Parts(|a|, chunk), i => m.unit);
    var ai := new T[lsz];
    var x := 0;
    while x < |order|
      invariant 0 <= x <= |order| && |parts| == Parts(|a|, chunk)
      invariant forall t: nat | t < |parts| && t in order[..x] :: PartDone(m, a, chunk, parts, t)
    {
      assert order[..x + 1] == order[..x] + [order[x]];
      PartStarts(|a|, chunk, order[x]);
      var partial := PartTile(m, a, chunk, order[x], ai);
      parts := parts[order[x] := partial];
      x := x + 1;
    }
    assert order[..x] == order;
    total := Combine(m, parts);
    PartsFold(m, a, chunk, parts, |parts|);
    PartStarts(|a|, chunk, |parts| - 1);
  }

  ghost predicate PartDone<T>(m: Monoid<T>, a: seq<T>, chunk: pos, parts: seq<T>, t: nat)
    requires t < |parts| == Parts(|a|, chunk)
  {
    PartStarts(|a|, chunk, t);
    parts[t] == Fold(m, a, t * chunk, Bound(|a|, chunk, t))
  }

  /** The combining tile: one work item folds all partial results. */
  method Combine<T(!new)>(m: Monoid<T>, parts: seq<T>) returns (acc: T)
    ensures acc == FoldAll(m, parts)
  {
    acc := m.unit;
    var i := 0;
    while i < |parts|
      invariant 0 <= i <= |parts| && acc == Fold(m, parts, 0, i)
    {
      acc := m.op(acc, parts[i]);
      i := i + 1;
    }
  }

  /** Folding the folds of the chunks is folding the whole. */
  lemma {:induction false} PartsFold<T(!new)>(m: Monoid<T>, a: seq<T>, chunk: pos, parts: seq<T>, k: nat)
    requires Lawful(m) && k <= |parts| == Parts(|a|, chunk)
    requires forall t: nat | t < |parts| :: PartDone(m, a, chunk, parts, t)
    ensures (if k == 0 then 0 else Bound(|a|, chunk, k - 1)) <= |a|
    ensures Fold(m, parts, 0, k) == Fold(m, a, 0, if k == 0 then 0 else Bound(|a|, chunk, k - 1))
  {
    if k == 0 {
    } else {
      PartsFold(m, a, chunk, parts, k - 1);
      PartStarts(|a|, chunk, k - 1);
      assert PartDone(m, a, chunk, parts, k - 1);
      if k > 1 {
        PartStarts(|a|, chunk, k - 2);
        assert (k - 2) * chunk + chunk == (k - 1) * chunk;
      }
      FoldSplit(m, a, 0, (k - 1) * chunk, Bound(|a|, chunk, k - 1));
    }
  }

  // ----- the monoids in use ---------------------------------------------------------------------------

  const HALF := 0x8000_0000
  const FULL := 0x1_0000_0000

  type int32 = x: int | -HALF <= x < HALF

  /** Two's-complement wrap-around. */
  function Wrap(x: int): int32 { (x + HALF) % FULL - HALF }

  lemma WrapBy(x: int)
    returns (k: int)
    ensures Wrap(x) == x - k * FULL
  {
    k := (x + HALF) / FULL;
  }

  lemma WrapSame(x: int, k: int)
    ensures Wrap(x + k * FULL) == Wrap(x)
  {
    var y := x + HALF;
    var q, r := y / FULL, y % FULL;
    assert y + k * FULL == (q + k) * FULL + r;
    assert (y + k * FULL) % FULL == r;
  }

  function Add32(x: int32, y: int32): int32 { Wrap(x + y) }
  function Mul32(x: int32, y: int32): int32 { Wrap(x * y) }
  function Max32(x: int32, y: int32): int32 { if x < y then y else x }
  function Min32(x: int32, y: int32): int32 { if y < x then y else x }

  const SUM: Monoid<int32> := Monoid(0, Add32)
  const PRODUCT: Monoid<int32> := Monoid(1, Mul32)
  const LEAST: int32 := -HALF
  const GREATEST: int32 := HALF - 1
  const MAXIMUM: Monoid<int32> := Monoid(LEAST, Max32)
  const MINIMUM: Monoid<int32> := Monoid(GREATEST, Min32)

  lemma SumAssociates(x: int32, y: int32, z: int32)
    ensures Wrap(Wrap(x + y) + z) == Wrap(x + Wrap(y + z))
  {
    var j := WrapBy(x + y);
    var k := WrapBy(y + z);
    WrapSame(x + y + z, -j);
    WrapSame(x + y + z, -k);
  }

  lemma ProductAssociates(x: int32, y: int32, z: int32)
    ensures Wrap(Wrap(x * y) * z) == Wrap(x * Wrap(y * z))
  {
    var j := WrapBy(x * y);
    var k := WrapBy(y * z);
    assert (x * y - j * FULL) * z == x * y * z + (-(j * z)) * FULL;
    assert x * (y * z - k * FULL) == x * y * z + (-(x * k)) * FULL;
    WrapSame(x * y * z, -(j * z));
    WrapSame(x * y * z, -(x * k));
  }

  lemma SumLawful()
    ensures Lawful(SUM)
  {
    forall x: int32, y: int32, z: int32
      ensures Laws(SUM, x, y, z)
    {
      SumAssociates(x, y, z);
    }
  }

  lemma ProductLawful()
    ensures Lawful(PRODUCT)
  {
    forall x: int32, y: int32, z: int32
      ensures Laws(PRODUCT, x, y, z)
    {
      ProductAssociates(x, y, z);
      assert x * y == y * x;
    }
  }

  /** The 32-bit wrapping sum and product, the maximum and the minimum are commutative monoids,
      so the reduction is exact for all four kinds. */
  lemma KindsLawful()
    ensures Lawful(SUM) && Lawful(PRODUCT) && Lawful(MAXIMUM) && Lawful(MINIMUM)
  {
    SumLawful();
    ProductLawful();
    hide SUM, PRODUCT;
    forall x: int32, y: int32, z: int32
      ensures Laws(MAXIMUM, x, y, z) && Laws(MINIMUM, x, y, z)
    {
    }
  }
}
