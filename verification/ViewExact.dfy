/** When a phase with strided views is right: exactly when no elementwise operation of the phase
    writes a buffer that one of several tiles reads through a view. */
module ViewExact {
  import opened Arith
  import opened Isa
  import opened Interleave
  import opened Streams
  import opened PhaseCut
  import opened Chains
  import opened Packing
  import opened Spread
  import opened OnePhase
  import opened PhaseUnits
  import opened PhaseCount

  /** The writer's buffer is read through a view by more than one tile of the reader. */
  predicate Clash(p: Program, part: seq<nat>, w: nat, r: nat)
    requires AllSchedulable(p, part)
  {
    w in part && r in part && !ViewSafePair(p.tg, p.instrs[w], p.instrs[r])
  }

  /** Every task names the destination of its instruction. */
  predicate NamesDst(p: Program, part: seq<nat>)
    requires InRange(p, part)
  {
    forall i | i in part :: TaskOf(p.tg, p.instrs[i]).dst == p.instrs[i].dst
  }

  /** No tile has a negative cost, and elementwise tiles cost something. */
  ghost predicate Priced(tg: Target) {
    tg.unitCost(TILE_EW) > 0.0 && forall op: nat :: tg.unitCost(op) >= 0.0
  }

  // ----- kernels that show the clash -----------------------------------------------------------------

  /** The cell that tile 1 of the writer sets and tile 0 of the reader copies to its own first
      cell. */
  function Shared(p: Program, w: nat): Cell
    requires w < |p.instrs|
  {
    Cell(p.instrs[w].dst, p.tg.tileSize)
  }

  function Copied(p: Program, r: nat): Cell
    requires r < |p.instrs|
  {
    Cell(p.instrs[r].dst, 0)
  }

  function Kernel(p: Program, w: nat, r: nat, t: Task, k: nat, m: Mem): Mem
    requires w < |p.instrs| && r < |p.instrs|
  {
    if t == TaskOf(p.tg, p.instrs[w]) && k == 1 then map[Shared(p, w) := 1]
    else if t == TaskOf(p.tg, p.instrs[r]) && k == 0 then map[Copied(p, r) := Get(m, Shared(p, w))]
    else map[]
  }

  predicate Looks(p: Program, w: nat, r: nat, t: Task, k: nat, c: Cell)
    requires w < |p.instrs| && r < |p.instrs|
  {
    t == TaskOf(p.tg, p.instrs[r]) && k == 0 && c == Shared(p, w)
  }

  function ClashDevice(p: Program, w: nat, r: nat): Device
    requires w < |p.instrs| && r < |p.instrs|
  {
    Device((t: Task, k: nat, m: Mem) => Kernel(p, w, r, t, k, m), (t: Task, k: nat, c: Cell) => Looks(p, w, r, t, k, c),
           Simulator)
  }

  lemma ClashFacts(p: Program, part: seq<nat>, w: nat, r: nat)
    requires CleanPhase(p, part) && Clash(p, part, w, r)
    ensures w in part && r in part && w < |p.instrs| && r < |p.instrs|
    ensures IsMap(p.tg, p.instrs[w]) && IsMap(p.tg, p.instrs[r])
    ensures p.instrs[w].dst in Reads(p.tg, p.instrs[r]) && p.instrs[w].dst in Viewed(p.tg, p.instrs[r])
    ensures Schedulable(p.tg, p.instrs[r]) && Tiles(p.tg, p.instrs[r]) >= 2
    ensures Schedulable(p.tg, p.instrs[w]) && Tiles(p.tg, p.instrs[w]) == Tiles(p.tg, p.instrs[r])
  {
    if w != r {
      MapsAgree(p, part, w, r);
    }
    PickKeeps(p, part, w);
    PickKeeps(p, part, r);
    SameTiles(p, part, w, r);
  }

  lemma {:induction false} PickKeeps(p: Program, part: seq<nat>, i: nat)
    requires InRange(p, part) && i in part
    ensures i in Pick(p, part, IsMap(p.tg, p.instrs[i]))
  {
    if part[0] == i {
    } else {
      PickKeeps(p, part[1..], i);
    }
  }

  /** Within a phase a task of an elementwise operation belongs to one instruction. */
  lemma OwnTask(p: Program, part: seq<nat>, i: nat, z: nat)
    requires CleanPhase(p, part) && NamesDst(p, part) && i in part && z in part && IsMap(p.tg, p.instrs[i])
    requires TaskOf(p.tg, p.instrs[z]) == TaskOf(p.tg, p.instrs[i])
    ensures z == i
  {
    if z != i {
      MapsAgree(p, part, i, z);
    }
  }

  lemma ClashTileOk(p: Program, part: seq<nat>, w: nat, r: nat, z: nat, k: nat)
    requires CleanPhase(p, part) && NamesDst(p, part) && Clash(p, part, w, r) && z in part
    ensures w < |p.instrs| && r < |p.instrs| && z < |p.instrs|
    ensures TileOk(p, ClashDevice(p, w, r), p.instrs[z], k)
  {
    hide CleanPhase, NamesDst, Clash, TaskOf, Viewed, Reads, Schedulable, Tiles;
    ClashFacts(p, part, w, r);
    CleanInRange(p, part);
    ClashPlaces(p, w, r);
    var t, dev := TaskOf(p.tg, p.instrs[z]), ClashDevice(p, w, r);
    if t == TaskOf(p.tg, p.instrs[w]) {
      OwnTask(p, part, w, z);
    }
    if t == TaskOf(p.tg, p.instrs[r]) {
      OwnTask(p, part, r, z);
    }
    forall m, m' | SameOn(dev, t, k, m, m')
      ensures dev.kern(t, k, m) == dev.kern(t, k, m')
    {
      assert t == TaskOf(p.tg, p.instrs[r]) && k == 0 ==> dev.touches(t, k, Shared(p, w));
    }
  }

  lemma ClashPlaces(p: Program, w: nat, r: nat)
    requires w < |p.instrs| && r < |p.instrs|
    ensures Shared(p, w).idx / p.tg.tileSize == 1 && Copied(p, r).idx / p.tg.tileSize == 0
    ensures Shared(p, w) != Copied(p, r)
  {
  }

  /** The kernels keep every promise. */
  lemma ClashLawful(p: Program, part: seq<nat>, w: nat, r: nat)
    requires CleanPhase(p, part) && NamesDst(p, part) && Clash(p, part, w, r)
    ensures InRange(p, part) && w < |p.instrs| && r < |p.instrs| && KernelsOn(p, ClashDevice(p, w, r), part)
  {
    hide NamesDst, Clash, TaskOf, Viewed, Reads, Tiles, TileOk, NTiles;
    ClashFacts(p, part, w, r);
    CleanInRange(p, part);
    var dev := ClashDevice(p, w, r);
    forall z | z in part
      ensures InstrOk(p, dev, p.instrs[z])
    {
      forall k: nat
        ensures TileOk(p, dev, p.instrs[z], k)
      {
        ClashTileOk(p, part, w, r, z, k);
      }
    }
  }

  // ----- what a run leaves in the two cells ------------------------------------------------------------

  /** In the run, the two tasks belong to the two instructions alone. */
  predicate Own(p: Program, w: nat, r: nat, run: seq<Step>)
    requires w < |p.instrs| && r < |p.instrs|
  {
    forall x | 0 <= x < |run| :: OwnStep(p, w, r, run[x])
  }

  predicate OwnStep(p: Program, w: nat, r: nat, s: Step)
    requires w < |p.instrs| && r < |p.instrs|
  {
    && s.instr < |p.instrs|
    && (TaskOf(p.tg, p.instrs[s.instr]) == TaskOf(p.tg, p.instrs[w]) ==> s.instr == w)
    && (TaskOf(p.tg, p.instrs[s.instr]) == TaskOf(p.tg, p.instrs[r]) ==> s.instr == r)
  }

  /** The effect of one step on the two cells. */
  lemma StepSeen(p: Program, w: nat, r: nat, s: Step, m: Mem)
    requires w < |p.instrs| && r < |p.instrs| && OwnStep(p, w, r, s)
    ensures var m' := Act(p, ClashDevice(p, w, r))(s, m);
            && Get(m', Shared(p, w)) == (if s == Step(w, 1) then 1 else Get(m, Shared(p, w)))
            && Get(m', Copied(p, r)) == (if s == Step(r, 0) then Get(m, Shared(p, w)) else Get(m, Copied(p, r)))
  {
    hide TaskOf;
    ClashPlaces(p, w, r);
  }

  /** The shared cell is set once the writer's tile has run; the copy is made when the reader's
      tile runs. */
  lemma {:induction false} RunSeen(p: Program, w: nat, r: nat, run: seq<Step>, m: Mem)
    requires w < |p.instrs| && r < |p.instrs| && Own(p, w, r, run)
    ensures var m' := Run(Act(p, ClashDevice(p, w, r)), run, m);
            && (Step(w, 1) in run ==> Get(m', Shared(p, w)) == 1)
            && (Step(w, 1) !in run ==> Get(m', Shared(p, w)) == Get(m, Shared(p, w)))
            && (Step(r, 0) !in run ==> Get(m', Copied(p, r)) == Get(m, Copied(p, r)))
            && (Step(r, 0) in run && Step(w, 1) !in run ==> Get(m', Copied(p, r)) == Get(m, Shared(p, w)))
            && (Step(r, 0) in run && Get(m, Shared(p, w)) == 1 ==>
              Get(m', Copied(p, r)) == 1 && Get(m', Shared(p, w)) == 1)
            && (Get(m, Shared(p, w)) == 1 ==> Get(m', Shared(p, w)) == 1)
  {
    hide Act, OwnStep, Shared, Copied, Get;
    if run == [] {
    } else {
      StepSeen(p, w, r, run[0], m);
      RunSeen(p, w, r, run[1..], Act(p, ClashDevice(p, w, r))(run[0], m));
      assert run == [run[0]] + run[1..];
    }
  }

  lemma Halves(run: seq<Step>, a: Step, b: Step, q: nat)
    requires SplitAt(run, a, b, q) && multiset(run)[a] == 1 && multiset(run)[b] == 1
    ensures run == run[..q] + run[q..] && a in run[..q] && b !in run[..q] && b in run[q..] && a !in run[q..]
  {
    assert run == run[..q] + run[q..];
    assert multiset(run) == multiset(run[..q]) + multiset(run[q..]);
    assert a in multiset(run[..q]) && b in multiset(run[q..]);
  }

  /** The copy tells which of the two tiles came first. */
  lemma CopyTells(p: Program, w: nat, r: nat, run: seq<Step>)
    requires w < |p.instrs| && r < |p.instrs| && Own(p, w, r, run)
    requires multiset(run)[Step(w, 1)] == 1 && multiset(run)[Step(r, 0)] == 1
    ensures var m := Run(Act(p, ClashDevice(p, w, r)), run, map[]);
            && (Precedes(run, Step(w, 1), Step(r, 0)) ==> Get(m, Copied(p, r)) == 1)
            && (Precedes(run, Step(r, 0), Step(w, 1)) ==> Get(m, Copied(p, r)) == 0)
  {
    hide Act, OwnStep;
    var act := Act(p, ClashDevice(p, w, r));
    forall q | SplitAt(run, Step(w, 1), Step(r, 0), q)
      ensures Get(Run(act, run, map[]), Copied(p, r)) == 1
    {
      Halves(run, Step(w, 1), Step(r, 0), q);
      BothHalves(p, w, r, run, q);
    }
    forall q | SplitAt(run, Step(r, 0), Step(w, 1), q)
      ensures Get(Run(act, run, map[]), Copied(p, r)) == 0
    {
      Halves(run, Step(r, 0), Step(w, 1), q);
      BothHalves(p, w, r, run, q);
    }
  }

  lemma BothHalves(p: Program, w: nat, r: nat, run: seq<Step>, q: nat)
    requires w < |p.instrs| && r < |p.instrs| && Own(p, w, r, run) && q <= |run| && run == run[..q] + run[q..]
    ensures var m := Run(Act(p, ClashDevice(p, w, r)), run, map[]);
            && (Step(w, 1) in run[..q] && Step(r, 0) in run[q..] ==> Get(m, Copied(p, r)) == 1)
            && (Step(r, 0) in run[..q] && Step(w, 1) !in run[..q] && Step(r, 0) !in run[q..] ==>
              Get(m, Copied(p, r)) == 0)
  {
    hide Act, OwnStep, Shared, Copied;
    var act := Act(p, ClashDevice(p, w, r));
    RunConcat(act, run[..q], run[q..], map[]);
    RunSeen(p, w, r, run[..q], map[]);
    RunSeen(p, w, r, run[q..], Run(act, run[..q], map[]));
  }

  // ----- program order and its opposite ------------------------------------------------------------------

  lemma InOrder(run: seq<Step>, a: Step, b: Step)
    requires Ascending(run) && a in run && b in run && Less(a, b)
    ensures Precedes(run, a, b)
  {
    var x :| 0 <= x < |run| && run[x] == a;
    var y :| 0 <= y < |run| && run[y] == b;
    assert x < y;
    assert run[..x + 1][x] == a && run[x + 1..][y - x - 1] == b;
    assert SplitAt(run, a, b, x + 1);
  }

  lemma OncePerTile(p: Program, part: seq<nat>, i: nat, k: nat)
    requires CleanPhase(p, part) && i in part && Schedulable(p.tg, p.instrs[i]) && k < Tiles(p.tg, p.instrs[i])
    ensures AllSchedulable(p, part) && multiset(PhaseSteps(p, part))[Step(i, k)] == 1
  {
    PhaseStepsCount(p, part, Step(i, k));
    AscendingOnce(part, i);
    assert i in multiset(part);
  }

  lemma PhaseOwn(p: Program, part: seq<nat>, w: nat, r: nat, run: seq<Step>)
    requires CleanPhase(p, part) && NamesDst(p, part) && Clash(p, part, w, r)
    requires multiset(run) == multiset(PhaseSteps(p, part))
    ensures w < |p.instrs| && r < |p.instrs| && Own(p, w, r, run)
  {
    ClashFacts(p, part, w, r);
    PhaseStepsAscending(p, part);
    var steps := PhaseSteps(p, part);
    forall x | 0 <= x < |run|
      ensures OwnStep(p, w, r, run[x])
    {
      assert run[x] in multiset(steps);
      assert run[x] in steps;
      StepOwn(p, part, w, r, run[x]);
    }
  }

  lemma StepOwn(p: Program, part: seq<nat>, w: nat, r: nat, s: Step)
    requires CleanPhase(p, part) && NamesDst(p, part) && Clash(p, part, w, r) && s.instr in part
    ensures w < |p.instrs| && r < |p.instrs| && OwnStep(p, w, r, s)
  {
    hide CleanPhase, NamesDst, Clash, TaskOf;
    ClashFacts(p, part, w, r);
    CleanInRange(p, part);
    if TaskOf(p.tg, p.instrs[s.instr]) == TaskOf(p.tg, p.instrs[w]) {
      OwnTask(p, part, w, s.instr);
    }
    if TaskOf(p.tg, p.instrs[s.instr]) == TaskOf(p.tg, p.instrs[r]) {
      OwnTask(p, part, r, s.instr);
    }
  }

  // ----- the unit of the two instructions ------------------------------------------------------------------

  /** Writer and reader are in one chain. */
  lemma OneComponent(p: Program, part: seq<nat>, comps: seq<seq<nat>>, w: nat, r: nat) returns (c: nat)
    requires CleanPhase(p, part) && Clash(p, part, w, r) && AreChains(p, Pick(p, part, true), comps)
    ensures c < |comps| && w in comps[c] && r in comps[c]
  {
    ClashFacts(p, part, w, r);
    PickKeeps(p, part, w);
    PickKeeps(p, part, r);
    c := ComponentOf(p, part, comps, w);
    if w != r {
      var d := ComponentOf(p, part, comps, r);
      LinkedWhenRead(p, part, w, r);
    }
  }

  lemma ComponentOf(p: Program, part: seq<nat>, comps: seq<seq<nat>>, i: nat) returns (c: nat)
    requires CleanPhase(p, part) && AreChains(p, Pick(p, part, true), comps) && i in Pick(p, part, true)
    ensures c < |comps| && i in comps[c]
  {
    hide CleanPhase;
    CleanInRange(p, part);
    assert i in multiset(Pick(p, part, true));
    assert i in multiset(Flatten(comps));
    c := FlattenFinds(comps, i);
  }

  /** What is known of the unit that holds both. */
  predicate UnitHolds(p: Program, owner: seq<nat>, u: Unit, w: nat, r: nat, x: nat, y: nat) {
    && x < |u.tids| && y < |u.tids| && TidsOk(owner, u.tids) && owner[u.tids[x]] == w && owner[u.tids[y]] == r
    && u.tiles >= 2 && u.cost > 0.0
  }

  lemma UnitOfClash(p: Program, part: seq<nat>, owner: seq<nat>, units: seq<Unit>, w: nat, r: nat)
    returns (uid: nat, x: nat, y: nat)
    requires CleanPhase(p, part) && UnitsFor(p, owner, part, units) && Clash(p, part, w, r) && Priced(p.tg)
    ensures uid < |units| && UnitHolds(p, owner, units[uid], w, r, x, y)
    ensures UnitsOk(owner, units) && forall z | 0 <= z < |units| :: units[z].cost >= 0.0
  {
    var comps :| AreChains(p, Pick(p, part, true), comps)
      && UnitsForChains(p, owner, Singles(Pick(p, part, false)) + comps, units);
    uid, x, y := UnitAmong(p, part, owner, comps, units, w, r);
  }

  lemma UnitAmong(p: Program, part: seq<nat>, owner: seq<nat>, comps: seq<seq<nat>>, units: seq<Unit>, w: nat, r: nat)
    returns (uid: nat, x: nat, y: nat)
    requires CleanPhase(p, part) && Clash(p, part, w, r) && Priced(p.tg) && AreChains(p, Pick(p, part, true), comps)
    requires UnitsForChains(p, owner, Singles(Pick(p, part, false)) + comps, units)
    ensures uid < |units| && UnitHolds(p, owner, units[uid], w, r, x, y)
    ensures UnitsOk(owner, units) && forall z | 0 <= z < |units| :: units[z].cost >= 0.0
  {
    hide AreChains, UnitsForChains, CleanPhase, Clash, Priced, UnitFor, GoodChain, UnitsOk;
    CleanInRange(p, part);
    var chains := Singles(Pick(p, part, false)) + comps;
    UnitsTidsOk(p, owner, chains, units);
    CostsKnown(p, owner, chains, units);
    var c := OneComponent(p, part, comps, w, r);
    uid := |Pick(p, part, false)| + c;
    assert chains[uid] == comps[c];
    UnitAt(p, owner, chains, units, uid);
    ComponentMembers(p, part, comps, c);
    forall i | i in comps[c]
      ensures i < |p.instrs| && IsMap(p.tg, p.instrs[i])
    {
      PickedMaps(p, part, i);
    }
    x, y := InUnit(p, part, owner, comps[c], units[uid], w, r);
  }

  lemma PickedMaps(p: Program, part: seq<nat>, i: nat)
    requires InRange(p, part) && i in Pick(p, part, true)
    ensures i < |p.instrs| && IsMap(p.tg, p.instrs[i])
  {
    hide IsMap;
  }

  lemma UnitAt(p: Program, owner: seq<nat>, chains: seq<seq<nat>>, units: seq<Unit>, uid: nat)
    requires UnitsForChains(p, owner, chains, units) && uid < |chains|
    ensures uid < |units| && GoodChain(p, chains[uid]) && UnitFor(p, owner, chains[uid], units[uid])
  {
    hide GoodChain, UnitFor;
  }

  lemma CostsKnown(p: Program, owner: seq<nat>, chains: seq<seq<nat>>, units: seq<Unit>)
    requires UnitsForChains(p, owner, chains, units) && Priced(p.tg)
    ensures forall z | 0 <= z < |units| :: units[z].cost >= 0.0
  {
    forall z | 0 <= z < |units|
      ensures units[z].cost >= 0.0
    {
      CostKnown(p, owner, chains[z], units[z]);
    }
  }

  lemma CostKnown(p: Program, owner: seq<nat>, chain: seq<nat>, u: Unit)
    requires GoodChain(p, chain) && UnitFor(p, owner, chain, u) && Priced(p.tg)
    ensures u.cost >= 0.0
    ensures u.tiles > 0 && TaskOf(p.tg, p.instrs[chain[0]]).tileOp == TILE_EW ==> u.cost > 0.0
  {
    hide TaskOf, Tiles;
    ProductSign(|chain| as real, u.tiles as real, p.tg.unitCost(TaskOf(p.tg, p.instrs[chain[0]]).tileOp));
  }

  lemma ProductSign(a: real, b: real, c: real)
    requires a > 0.0 && b >= 0.0 && c >= 0.0
    ensures a * b * c >= 0.0 && (b > 0.0 && c > 0.0 ==> a * b * c > 0.0)
  {
  }

  lemma InUnit(p: Program, part: seq<nat>, owner: seq<nat>, chain: seq<nat>, u: Unit, w: nat, r: nat)
    returns (x: nat, y: nat)
    requires CleanPhase(p, part) && Clash(p, part, w, r) && Priced(p.tg)
    requires GoodChain(p, chain) && UnitFor(p, owner, chain, u) && w in chain && r in chain
    requires forall i | i in chain :: i < |p.instrs| && IsMap(p.tg, p.instrs[i])
    ensures UnitHolds(p, owner, u, w, r, x, y)
  {
    ClashFacts(p, part, w, r);
    hide TaskOf, CleanPhase, Clash, Priced, NTiles;
    x :| 0 <= x < |chain| && chain[x] == w;
    y :| 0 <= y < |chain| && chain[y] == r;
    assert Tiles(p.tg, p.instrs[chain[y]]) == Tiles(p.tg, p.instrs[chain[0]]);
    CostKnown(p, owner, chain, u);
  }

  // ----- the theorem -------------------------------------------------------------------------------------

  predicate RightIn(p: Program, dev: Device, owner: seq<nat>, part: seq<nat>, units: seq<Unit>, n: pos, sched: seq<nat>,
                    m: Mem)
    requires AllSchedulable(p, part) && PackedOk(owner, units, n) && ValidSched(PackedSteps(owner, units, n), sched)
  {
    Run(Act(p, dev), Weave(PackedSteps(owner, units, n), sched), m) == Run(Act(p, dev), PhaseSteps(p, part), m)
  }

  /** Right for all lawful kernels, lane counts, interleavings and memories. */
  ghost predicate AlwaysRight(p: Program, owner: seq<nat>, part: seq<nat>, units: seq<Unit>)
    requires AllSchedulable(p, part)
  {
    forall dev, n: pos, sched, m {:trigger RightIn(p, dev, owner, part, units, n, sched, m)}
      | KernelsOn(p, dev, part) && PackedOk(owner, units, n) && ValidSched(PackedSteps(owner, units, n), sched) ::
      RightIn(p, dev, owner, part, units, n, sched, m)
  }

  /** An interleaving that runs the two tiles against program order. */
  lemma WrongWay(p: Program, part: seq<nat>, owner: seq<nat>, units: seq<Unit>, w: nat, r: nat)
    returns (n: pos, sched: seq<nat>)
    requires CleanPhase(p, part) && UnitsFor(p, owner, part, units) && Clash(p, part, w, r) && Priced(p.tg)
    ensures PackedOk(owner, units, n) && ValidSched(PackedSteps(owner, units, n), sched)
    ensures var run := Weave(PackedSteps(owner, units, n), sched);
            && multiset(run) == multiset(PhaseSteps(p, part))
            && if w < r then Precedes(run, Step(r, 0), Step(w, 1)) else Precedes(run, Step(w, 1), Step(r, 0))
  {
    hide UnitsFor, Clash, CleanPhase, Priced, Enough, PackedOk, PackedSteps;
    CleanInRange(p, part);
    var uid, x, y := UnitOfClash(p, part, owner, units, w, r);
    n := EnoughLanes(units, uid);
    PackedBag(p, owner, part, units, n);
    var A, B := TilesApart(owner, units, n, uid, x, 1, y, 0);
    var lanes := PackedSteps(owner, units, n);
    ClashOnce(p, part, w, r);
    if w < r {
      sched := EitherFirst(lanes, B, A, Step(r, 0), Step(w, 1));
    } else {
      sched := EitherFirst(lanes, A, B, Step(w, 1), Step(r, 0));
    }
    WeaveBag(lanes, sched);
  }

  lemma ClashOnce(p: Program, part: seq<nat>, w: nat, r: nat)
    requires CleanPhase(p, part) && Clash(p, part, w, r)
    ensures AllSchedulable(p, part)
    ensures multiset(PhaseSteps(p, part))[Step(w, 1)] == 1 && multiset(PhaseSteps(p, part))[Step(r, 0)] == 1
  {
    hide CleanPhase, Clash;
    CleanInRange(p, part);
    ClashFacts(p, part, w, r);
    OncePerTile(p, part, w, 1);
    OncePerTile(p, part, r, 0);
  }

  lemma ProgramWay(p: Program, part: seq<nat>, w: nat, r: nat)
    requires CleanPhase(p, part) && Clash(p, part, w, r)
    ensures AllSchedulable(p, part)
    ensures if w < r then Precedes(PhaseSteps(p, part), Step(w, 1), Step(r, 0))
        else Precedes(PhaseSteps(p, part), Step(r, 0), Step(w, 1))
  {
    hide CleanPhase, Clash;
    CleanInRange(p, part);
    ClashOnce(p, part, w, r);
    PhaseStepsAscending(p, part);
    var run := PhaseSteps(p, part);
    assert Step(w, 1) in multiset(run) && Step(r, 0) in multiset(run);
    if w < r {
      InOrder(run, Step(w, 1), Step(r, 0));
    } else {
      InOrder(run, Step(r, 0), Step(w, 1));
    }
  }

  /** A clash goes wrong for some lawful kernels. */
  lemma ClashShows(p: Program, owner: seq<nat>, part: seq<nat>, units: seq<Unit>, w: nat, r: nat)
    requires CleanPhase(p, part) && UnitsFor(p, owner, part, units) && NamesDst(p, part) && Priced(p.tg)
    requires Clash(p, part, w, r)
    ensures AllSchedulable(p, part) && !AlwaysRight(p, owner, part, units)
  {
    hide UnitsFor, Clash, CleanPhase, Priced, PackedOk, PackedSteps, NamesDst, Precedes, Act;
    CleanInRange(p, part);
    ClashFacts(p, part, w, r);
    ClashLawful(p, part, w, r);
    ClashOnce(p, part, w, r);
    var dev := ClashDevice(p, w, r);
    var n, sched := WrongWay(p, part, owner, units, w, r);
    ProgramWay(p, part, w, r);
    var run, steps := Weave(PackedSteps(owner, units, n), sched), PhaseSteps(p, part);
    PhaseOwn(p, part, w, r, run);
    PhaseOwn(p, part, w, r, steps);
    CopyTells(p, w, r, run);
    CopyTells(p, w, r, steps);
    assert !RightIn(p, dev, owner, part, units, n, sched, map[]);
  }

  /** The phase is right for all lawful kernels, lane counts, interleavings and memories exactly
      when no view clashes with a write. */
  lemma ViewSafeExact(p: Program, owner: seq<nat>, part: seq<nat>, units: seq<Unit>)
    requires CleanPhase(p, part) && UnitsFor(p, owner, part, units) && NamesDst(p, part) && Priced(p.tg)
    ensures AllSchedulable(p, part) && (ViewSafe(p, part) <==> AlwaysRight(p, owner, part, units))
  {
    hide UnitsFor, Priced, PackedOk, PackedSteps, NamesDst, KernelsOn, ViewSafePair, Legal;
    if ViewSafe(p, part) {
      forall dev, n: pos, sched, m | KernelsOn(p, dev, part) && PackedOk(owner, units, n)
          && ValidSched(PackedSteps(owner, units, n), sched)
        ensures RightIn(p, dev, owner, part, units, n, sched, m)
      {
        PhaseTheorem(p, dev, owner, part, units, n, sched, m);
      }
    } else {
      var x, y :| 0 <= x < |part| && 0 <= y < |part| && !ViewSafePair(p.tg, p.instrs[part[x]], p.instrs[part[y]]);
      ClashShows(p, owner, part, units, part[x], part[y]);
    }
  }
}
