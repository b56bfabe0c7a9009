/** One barrier-separated phase: however its units are packed onto lanes, and however the lanes
    interleave, it leaves the memory that running its instructions in program order leaves. */
module OnePhase {
  import opened Isa
  import opened Interleave
  import opened Streams
  import opened PhaseCut
  import opened Chains
  import opened Packing

  /** Who walks a program: the interpreter and the lane simulator, which mirrors it; or the host
      engine, which has room for one nested region fewer and counts trips in a C int. */
  datatype Walker = Simulator | HostDispatch

  /** What runs a program: what one tile of a task writes, given the memory it runs in, which
      cells it may look at, and whose limits on regions hold. */
  datatype Device = Device(kern: (Task, nat, Mem) -> Mem, touches: (Task, nat, Cell) -> bool, walker: Walker)

  function Act(p: Program, dev: Device): (Step, Mem) -> Mem {
    (s: Step, m: Mem) =>
      if s.instr < |p.instrs| then m + dev.kern(TaskOf(p.tg, p.instrs[s.instr]), s.tile, m) else m
  }

  // ----- what the tile kernels promise -------------------------------------------------

  ghost predicate SameOn(dev: Device, t: Task, k: nat, m: Mem, m': Mem) {
    forall c | dev.touches(t, k, c) :: Get(m, c) == Get(m', c)
  }

  /** A tile's result depends only on the cells it may look at. */
  ghost predicate Faithful(dev: Device, t: Task, k: nat) {
    forall m, m' | SameOn(dev, t, k, m, m') :: dev.kern(t, k, m) == dev.kern(t, k, m')
  }

  /** A cell that tile `k` of `ins` may look at lies in a declared operand, and for an
      elementwise operation inside tile `k` of it unless the operand is viewed. */
  predicate MayRead(p: Program, ins: Instr, k: nat, c: Cell) {
    && c.buf in Reads(p.tg, ins)
    && (IsMap(p.tg, ins) && c.buf !in Viewed(p.tg, ins) ==> c.idx / p.tg.tileSize == k)
  }

  predicate MayWrite(p: Program, ins: Instr, k: nat, c: Cell) {
    && c.buf == ins.dst
    && (IsMap(p.tg, ins) ==> c.idx / p.tg.tileSize == k)
  }

  ghost predicate TileOk(p: Program, dev: Device, ins: Instr, k: nat) {
    var t := TaskOf(p.tg, ins);
    && Faithful(dev, t, k)
    && (forall c | dev.touches(t, k, c) :: MayRead(p, ins, k, c))
    && (forall m, c | c in dev.kern(t, k, m) :: MayWrite(p, ins, k, c))
  }

  /** Tile `k` of `t` never writes a cell that tile `l` of `u` may look at or writes. */
  ghost predicate Clear(dev: Device, t: Task, k: nat, u: Task, l: nat) {
    forall m, c | c in dev.kern(t, k, m) :: !dev.touches(u, l, c) && c !in dev.kern(u, l, m)
  }

  ghost predicate Separate(dev: Device, t: Task, k: nat, u: Task, l: nat) {
    Clear(dev, t, k, u, l) && Clear(dev, u, l, t, k)
  }

  ghost predicate ShapedTilesOk(p: Program, dev: Device, ins: Instr)
    requires TaskOf(p.tg, ins).tileOp <= MAX_TILE_OP
  {
    var t := TaskOf(p.tg, ins);
    forall k: nat, l: nat | k < NTiles(p.tg, t) && l < NTiles(p.tg, t) && k != l :: Separate(dev, t, k, t, l)
  }

  /** What the scheduler takes for granted of one compute instruction. */
  ghost predicate InstrOk(p: Program, dev: Device, ins: Instr) {
    var t := TaskOf(p.tg, ins);
    && Schedulable(p.tg, ins)
    && (forall k: nat | k < NTiles(p.tg, t) :: TileOk(p, dev, ins, k))
    && (!IsMap(p.tg, ins) ==> ShapedTilesOk(p, dev, ins))
  }

  /** Members of one disjoint group really are disjoint over their common destination. */
  ghost predicate GroupOk(p: Program, dev: Device, a: Instr, b: Instr) {
    var t, u := TaskOf(p.tg, a), TaskOf(p.tg, b);
    && t.tileOp <= MAX_TILE_OP && u.tileOp <= MAX_TILE_OP
    && forall k: nat, l: nat | k < NTiles(p.tg, t) && l < NTiles(p.tg, u) :: Separate(dev, t, k, u, l)
  }

  /** Two compute instructions that may write one buffer without a dependence. */
  predicate Grouped(a: Instr, b: Instr) {
    a.disjoint == b.disjoint != 0 && a.dst == b.dst
  }

  /** The premises on the kernels of some instructions. */
  ghost predicate KernelsOn(p: Program, dev: Device, part: seq<nat>)
    requires InRange(p, part)
  {
    && (forall i | i in part && p.instrs[i].IsCompute() :: InstrOk(p, dev, p.instrs[i]))
    && (forall i, j | i in part && j in part && i != j && p.instrs[i].IsCompute() && p.instrs[j].IsCompute()
          && Grouped(p.instrs[i], p.instrs[j]) :: GroupOk(p, dev, p.instrs[i], p.instrs[j]))
  }

  function Everything(p: Program): (all: seq<nat>)
    ensures InRange(p, all) && |all| == |p.instrs| && forall i | 0 <= i < |all| :: all[i] == i
  {
    seq(|p.instrs|, i => i)
  }

  /** The premises on all kernels of a program. */
  ghost predicate KernelsOk(p: Program, dev: Device) {
    KernelsOn(p, dev, Everything(p))
  }

  lemma KernelsOfSome(p: Program, dev: Device, part: seq<nat>)
    requires KernelsOk(p, dev) && InRange(p, part)
    ensures KernelsOn(p, dev, part)
  {
    hide InstrOk, GroupOk, Grouped;
    assert forall i | i in part :: Everything(p)[i] == i;
  }

  predicate AllSchedulable(p: Program, part: seq<nat>) {
    InRange(p, part) && forall x | 0 <= x < |part| :: Schedulable(p.tg, p.instrs[part[x]])
  }

  /** No elementwise operation of the phase writes a buffer that an elementwise operation of
      the phase reads through a view, unless the reader is a single tile. */
  predicate ViewSafe(p: Program, part: seq<nat>)
    requires AllSchedulable(p, part)
  {
    forall x, y | 0 <= x < |part| && 0 <= y < |part| :: ViewSafePair(p.tg, p.instrs[part[x]], p.instrs[part[y]])
  }

  predicate ViewSafePair(tg: Target, writer: Instr, reader: Instr)
    requires Schedulable(tg, reader)
  {
    IsMap(tg, writer) && IsMap(tg, reader) && writer.dst in Viewed(tg, reader) * Reads(tg, reader) ==>
      NTiles(tg, TaskOf(tg, reader)) <= 1
  }

  // ----- separate tiles commute ---------------------------------------------------------

  lemma UntouchedSame(dev: Device, t: Task, k: nat, u: Task, l: nat, m: Mem)
    requires Clear(dev, t, k, u, l) && Faithful(dev, u, l)
    ensures dev.kern(u, l, m + dev.kern(t, k, m)) == dev.kern(u, l, m)
  {
    assert SameOn(dev, u, l, m + dev.kern(t, k, m), m);
  }

  lemma ClearKeys(dev: Device, t: Task, k: nat, u: Task, l: nat, m: Mem)
    requires Clear(dev, t, k, u, l)
    ensures forall c | c in dev.kern(t, k, m) :: c !in dev.kern(u, l, m)
  {
    forall c | c in dev.kern(t, k, m)
      ensures c !in dev.kern(u, l, m)
    {
      assert !dev.touches(u, l, c);
    }
  }

  lemma SeparateCommute(p: Program, dev: Device, a: Step, b: Step)
    requires a.instr < |p.instrs| && b.instr < |p.instrs|
    requires var t, u := TaskOf(p.tg, p.instrs[a.instr]), TaskOf(p.tg, p.instrs[b.instr]);
             Separate(dev, t, a.tile, u, b.tile) && Faithful(dev, t, a.tile) && Faithful(dev, u, b.tile)
    ensures Commute(Act(p, dev), a, b)
  {
    var t, u := TaskOf(p.tg, p.instrs[a.instr]), TaskOf(p.tg, p.instrs[b.instr]);
    forall m
      ensures Act(p, dev)(b, Act(p, dev)(a, m)) == Act(p, dev)(a, Act(p, dev)(b, m))
    {
      UntouchedSame(dev, t, a.tile, u, b.tile, m);
      UntouchedSame(dev, u, b.tile, t, a.tile, m);
      var da, db := dev.kern(t, a.tile, m), dev.kern(u, b.tile, m);
      ClearKeys(dev, t, a.tile, u, b.tile, m);
      assert m + da + db == m + db + da;
    }
  }

  // ----- which tiles of a phase are separate ----------------------------------------------

  ghost predicate PhaseOk(p: Program, dev: Device, part: seq<nat>) {
    && AllSchedulable(p, part) && StrictlyAscending(part) && Legal(p, part)
    && KernelsOn(p, dev, part) && ViewSafe(p, part)
  }

  predicate TileOf(p: Program, part: seq<nat>, s: Step)
    requires InRange(p, part)
  {
    && s.instr in part
    && var t := TaskOf(p.tg, p.instrs[s.instr]); t.tileOp <= MAX_TILE_OP && s.tile < NTiles(p.tg, t)
  }

  lemma PositionOrder(s: seq<nat>, x: nat, y: nat)
    requires StrictlyAscending(s) && x < |s| && y < |s| && s[x] < s[y]
    ensures x < y
  {
  }

  lemma NoCrossLaneDep(p: Program, part: seq<nat>, i: nat, j: nat)
    requires Legal(p, part) && StrictlyAscending(part) && i in part && j in part && i < j
    ensures !CrossLaneDep(p.tg, p.instrs[j], p.instrs[i])
  {
    var x :| 0 <= x < |part| && part[x] == i;
    var y :| 0 <= y < |part| && part[y] == j;
    PositionOrder(part, x, y);
    assert !Boundary(p, part[y], part[x]);
  }

  lemma PairViewSafe(p: Program, part: seq<nat>, i: nat, j: nat)
    requires AllSchedulable(p, part) && ViewSafe(p, part) && i in part && j in part
    ensures ViewSafePair(p.tg, p.instrs[i], p.instrs[j])
  {
    var x :| 0 <= x < |part| && part[x] == i;
    var y :| 0 <= y < |part| && part[y] == j;
  }

  /** The tiles of a map that writes and one that reads, at different tile numbers. */
  lemma MapsClear(p: Program, dev: Device, a: Instr, k: nat, b: Instr, l: nat)
    requires InstrOk(p, dev, a) && InstrOk(p, dev, b) && IsMap(p.tg, a) && IsMap(p.tg, b)
    requires k < NTiles(p.tg, TaskOf(p.tg, a)) && l < NTiles(p.tg, TaskOf(p.tg, b)) && k != l
    requires a.n == b.n && ViewSafePair(p.tg, a, b)
    ensures Clear(dev, TaskOf(p.tg, a), k, TaskOf(p.tg, b), l)
  {
    assert TileOk(p, dev, a, k) && TileOk(p, dev, b, l);
    var t, u := TaskOf(p.tg, a), TaskOf(p.tg, b);
    assert NTiles(p.tg, t) == NTiles(p.tg, u) > 1;
    forall m, c | c in dev.kern(t, k, m)
      ensures !dev.touches(u, l, c) && c !in dev.kern(u, l, m)
    {
      assert MayWrite(p, a, k, c);
      assert dev.touches(u, l, c) ==> MayRead(p, b, l, c);
      assert c in dev.kern(u, l, m) ==> MayWrite(p, b, l, c);
    }
  }

  lemma SelfSeparate(p: Program, dev: Device, part: seq<nat>, i: nat, k: nat, l: nat)
    requires PhaseOk(p, dev, part) && TileOf(p, part, Step(i, k)) && TileOf(p, part, Step(i, l)) && k != l
    ensures var t := TaskOf(p.tg, p.instrs[i]); Separate(dev, t, k, t, l)
  {
    PairViewSafe(p, part, i, i);
    assert InstrOk(p, dev, p.instrs[i]);
    if IsMap(p.tg, p.instrs[i]) {
      MapsClear(p, dev, p.instrs[i], k, p.instrs[i], l);
      MapsClear(p, dev, p.instrs[i], l, p.instrs[i], k);
    }
  }

  lemma UnrelatedSeparate(p: Program, dev: Device, a: Instr, k: nat, b: Instr, l: nat)
    requires TileOk(p, dev, a, k) && TileOk(p, dev, b, l)
    requires a.dst != b.dst && a.dst !in Reads(p.tg, b) && b.dst !in Reads(p.tg, a)
    ensures Separate(dev, TaskOf(p.tg, a), k, TaskOf(p.tg, b), l)
  {
    UnrelatedClear(p, dev, a, k, b, l);
    UnrelatedClear(p, dev, b, l, a, k);
  }

  lemma UnrelatedClear(p: Program, dev: Device, a: Instr, k: nat, b: Instr, l: nat)
    requires TileOk(p, dev, a, k) && TileOk(p, dev, b, l)
    requires a.dst != b.dst && a.dst !in Reads(p.tg, b)
    ensures Clear(dev, TaskOf(p.tg, a), k, TaskOf(p.tg, b), l)
  {
    var t, u := TaskOf(p.tg, a), TaskOf(p.tg, b);
    forall m, c | c in dev.kern(t, k, m)
      ensures !dev.touches(u, l, c) && c !in dev.kern(u, l, m)
    {
      assert MayWrite(p, a, k, c);
      assert dev.touches(u, l, c) ==> MayRead(p, b, l, c);
      assert c in dev.kern(u, l, m) ==> MayWrite(p, b, l, c);
    }
  }

  predicate Related(p: Program, a: Instr, b: Instr) {
    a.dst in Reads(p.tg, b) || b.dst in Reads(p.tg, a)
  }

  /** Two tiles of different instructions of a phase are separate unless they are the same tile
      of two elementwise operations joined by a data dependence. */
  lemma PairSeparate(p: Program, dev: Device, part: seq<nat>, s: Step, r: Step)
    requires PhaseOk(p, dev, part) && TileOf(p, part, s) && TileOf(p, part, r) && s.instr < r.instr
    requires var a, b := p.instrs[s.instr], p.instrs[r.instr];
             !(IsMap(p.tg, a) && IsMap(p.tg, b) && s.tile == r.tile && Related(p, a, b))
    ensures Separate(dev, TaskOf(p.tg, p.instrs[s.instr]), s.tile, TaskOf(p.tg, p.instrs[r.instr]), r.tile)
  {
    var a, b := p.instrs[s.instr], p.instrs[r.instr];
    NoCrossLaneDep(p, part, s.instr, r.instr);
    assert InstrOk(p, dev, a) && InstrOk(p, dev, b);
    assert TileOk(p, dev, a, s.tile) && TileOk(p, dev, b, r.tile);
    if !Depends(p.tg, b, a) {
      IndependentApart(p.tg, b, a);
      if a.dst == b.dst {
        assert GroupOk(p, dev, a, b);
      } else {
        UnrelatedSeparate(p, dev, a, s.tile, b, r.tile);
      }
    } else if s.tile != r.tile {
      PairViewSafe(p, part, s.instr, r.instr);
      PairViewSafe(p, part, r.instr, s.instr);
      MapsClear(p, dev, a, s.tile, b, r.tile);
      MapsClear(p, dev, b, r.tile, a, s.tile);
    } else {
      assert a.dst != b.dst by {
        assert a.dst in Writes(a) && b.dst in Writes(b);
      }
      UnrelatedSeparate(p, dev, a, s.tile, b, r.tile);
    }
  }

  /** Independence spelled out: only members of one disjoint group may share a destination. */
  lemma IndependentApart(tg: Target, later: Instr, earlier: Instr)
    requires !Depends(tg, later, earlier) && later.IsCompute() && earlier.IsCompute()
    ensures later.dst == earlier.dst ==> later.disjoint == earlier.disjoint != 0
    ensures later.dst != earlier.dst ==> earlier.dst !in Reads(tg, later) && later.dst !in Reads(tg, earlier)
  {
    var grouped := earlier.disjoint != 0 && earlier.disjoint == later.disjoint;
    var aw := if grouped then Writes(earlier) - Writes(later) else Writes(earlier);
    var bw := if grouped then Writes(later) - Writes(earlier) else Writes(later);
    assert later.dst == earlier.dst && !grouped ==> later.dst in bw * aw;
    if later.dst != earlier.dst {
      assert earlier.dst in aw && later.dst in bw;
      assert earlier.dst in Reads(tg, later) ==> earlier.dst in Reads(tg, later) * aw;
      assert later.dst in Reads(tg, earlier) ==> later.dst in Reads(tg, earlier) * bw;
    }
  }

  // ----- a whole instruction --------------------------------------------------------------

  /** What the first `k` tiles write when all of them see the same memory. */
  function Delta(dev: Device, t: Task, k: nat, m: Mem): Mem {
    if k == 0 then map[] else Delta(dev, t, k - 1, m) + dev.kern(t, k - 1, m)
  }

  /** The instruction as one operation: every tile computed from the memory before it. */
  function Whole(p: Program, dev: Device, i: nat, m: Mem): Mem
    requires i < |p.instrs| && Schedulable(p.tg, p.instrs[i])
  {
    m + Delta(dev, TaskOf(p.tg, p.instrs[i]), Tiles(p.tg, p.instrs[i]), m)
  }

  lemma DeltaUntouched(dev: Device, t: Task, k: nat, l: nat, m: Mem)
    requires Faithful(dev, t, l) && ClearBefore(dev, t, l) && k <= l
    ensures dev.kern(t, l, m + Delta(dev, t, k, m)) == dev.kern(t, l, m)
  {
    forall c | c in Delta(dev, t, k, m)
      ensures !dev.touches(t, l, c)
    {
      var j := DeltaKeys(dev, t, k, m, c);
      assert Clear(dev, t, j, t, l);
    }
    assert SameOn(dev, t, l, m + Delta(dev, t, k, m), m);
  }

  lemma {:induction false} DeltaKeys(dev: Device, t: Task, k: nat, m: Mem, c: Cell)
    returns (j: nat)
    requires c in Delta(dev, t, k, m)
    ensures j < k && c in dev.kern(t, j, m)
  {
    if c in dev.kern(t, k - 1, m) {
      j := k - 1;
    } else {
      j := DeltaKeys(dev, t, k - 1, m, c);
    }
  }

  /** Each of the first `n` tiles is faithful and unaffected by the ones before it. */
  ghost predicate TilesInOrder(dev: Device, t: Task, n: nat) {
    forall l: nat | l < n :: Faithful(dev, t, l) && ClearBefore(dev, t, l)
  }

  ghost predicate ClearBefore(dev: Device, t: Task, l: nat) {
    forall j: nat | j < l :: Clear(dev, t, j, t, l)
  }

  lemma {:induction false} TilesSoFar(p: Program, dev: Device, i: nat, k: nat, m: Mem)
    requires i < |p.instrs| && Schedulable(p.tg, p.instrs[i]) && k <= Tiles(p.tg, p.instrs[i])
    requires TilesInOrder(dev, TaskOf(p.tg, p.instrs[i]), Tiles(p.tg, p.instrs[i]))
    ensures Run(Act(p, dev), TileSteps(i, 0, k), m) == m + Delta(dev, TaskOf(p.tg, p.instrs[i]), k, m)
  {
    hide TaskOf, Tiles, Act, Schedulable, Faithful, ClearBefore;
    if k == 0 {
    } else {
      var act, t := Act(p, dev), TaskOf(p.tg, p.instrs[i]);
      TilesSoFar(p, dev, i, k - 1, m);
      DeltaUntouched(dev, t, k - 1, k - 1, m);
      assert TileSteps(i, 0, k) == TileSteps(i, 0, k - 1) + [Step(i, k - 1)];
      RunConcat(act, TileSteps(i, 0, k - 1), [Step(i, k - 1)], m);
      OneStepRuns(p, dev, i, k - 1, m + Delta(dev, t, k - 1, m));
      AddTwice(m, Delta(dev, t, k - 1, m), dev.kern(t, k - 1, m));
    }
  }

  lemma OneStepRuns(p: Program, dev: Device, i: nat, l: nat, m: Mem)
    requires i < |p.instrs| && Schedulable(p.tg, p.instrs[i])
    ensures Run(Act(p, dev), [Step(i, l)], m) == m + dev.kern(TaskOf(p.tg, p.instrs[i]), l, m)
  {
    hide Schedulable, TaskOf;
    var s := [Step(i, l)];
    assert s[1..] == [];
  }

  lemma AddTwice(m: Mem, a: Mem, b: Mem)
    ensures m + a + b == m + (a + b)
  {
  }

  /** Tile by tile or all at once, an instruction of a good phase leaves the same memory. */
  lemma WholeByTiles(p: Program, dev: Device, part: seq<nat>, i: nat, m: Mem)
    requires PhaseOk(p, dev, part) && i in part
    ensures i < |p.instrs| && Schedulable(p.tg, p.instrs[i])
    ensures Run(Act(p, dev), TileSteps(i, 0, Tiles(p.tg, p.instrs[i])), m) == Whole(p, dev, i, m)
  {
    var t := TaskOf(p.tg, p.instrs[i]);
    forall l: nat | l < Tiles(p.tg, p.instrs[i])
      ensures Faithful(dev, t, l) && ClearBefore(dev, t, l)
    {
      assert InstrOk(p, dev, p.instrs[i]);
      assert TileOk(p, dev, p.instrs[i], l);
      forall j: nat | j < l
        ensures Clear(dev, t, j, t, l)
      {
        SelfSeparate(p, dev, part, i, j, l);
      }
    }
    TilesSoFar(p, dev, i, Tiles(p.tg, p.instrs[i]), m);
  }
}
