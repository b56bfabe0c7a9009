/** The recursive interpreter: the meaning that every schedule has to preserve. */
module Reference {
  import opened Isa
  import opened Interleave
  import opened PhaseCut
  import opened Streams
  import opened OnePhase
  import opened PhaseUnits
  import opened Packing
  import opened Arith

  const MAX_DEPTH := 8

  /** `OutOfFuel`: some While needed more iterations than the fuel allows. `Truncated`: the host engine
      took a region that it had no room for as the end of the program. */
  datatype Outcome = Done(mem: Mem) | Failed | OutOfFuel | Truncated(mem: Mem)

  function Range(s: nat, len: nat): (r: seq<nat>)
    ensures |r| == len && forall x | 0 <= x < len :: r[x] == s + x
  {
    seq(len, x requires 0 <= x < len => s + x)
  }

  /** The two instruction ranges of a region operation; a For has no first range. */
  function FirstRange(ins: Instr): (nat, nat) {
    if ins.op == For then (0, 0) else (ins.a, ins.b)
  }

  function SecondRange(ins: Instr): (nat, nat) {
    (ins.n, ins.imm)
  }

  /** The range that an If selects. */
  function Selected(ins: Instr, m: Mem): (nat, nat) {
    if Get(m, Cell(ins.dst, 0)) != 0 then FirstRange(ins) else SecondRange(ins)
  }

  // ----- the limits of the host engine --------------------------------------------------------

  /** Whether another range may be opened on a stack of `size` frames. */
  predicate Room(kind: Walker, size: nat) {
    if kind == HostDispatch then size < MAX_DEPTH else size <= MAX_DEPTH
  }

  /** Whether a range at this depth may open another. */
  predicate CanNest(kind: Walker, depth: nat) {
    Room(kind, depth + 1)
  }

  /** The host engine has no room for a region at this depth. */
  predicate Cramped(dev: Device, depth: nat) {
    dev.walker == HostDispatch && !CanNest(HostDispatch, depth)
  }

  const WORD := 0x1_0000_0000
  const INT_LIMIT := 0x8000_0000

  /** The trip count as the walker keeps it: the host engine casts it to a 32-bit int. */
  function Counter(kind: Walker, count: nat): int {
    if kind == Simulator then count
    else if count % WORD < INT_LIMIT then count % WORD else count % WORD - WORD
  }

  /** The trips still to make by a loop that has been entered: its counter goes down after each, and
      it is left when the counter is no longer positive. */
  function TripsLeft(counter: int): nat {
    if counter > 1 then counter else 1
  }

  /** The trips that a fixed-trip loop makes. */
  function Trips(kind: Walker, count: nat): nat {
    if count == 0 then 0 else TripsLeft(Counter(kind, count))
  }

  predicate NoTrips(ins: Instr) {
    ins.op == For && ins.b == 0
  }

  /** Nothing is laid out for the range, in any lane: no region, no tile, no barrier. */
  predicate Bare(p: Program, r: (nat, nat)) {
    && InRange(p, Range(r.0, r.1))
    && (forall i: nat | r.0 <= i < r.0 + r.1 && i < |p.instrs| ::
          !p.instrs[i].IsRegion() && (Schedulable(p.tg, p.instrs[i]) ==> Tiles(p.tg, p.instrs[i]) == 0))
    && |Greedy(p, [], Live(p, Range(r.0, r.1)))| <= 1
  }

  /** The instructions of a list that are not NOPs. */
  function Live(p: Program, indices: seq<nat>): (r: seq<nat>)
    requires InRange(p, indices)
    ensures InRange(p, r)
  {
    if indices == [] then []
    else
      var rest := Live(p, indices[1..]);
      if p.instrs[indices[0]].op == Nop then rest else [indices[0]] + rest
  }

  // ----- the interpreter ----------------------------------------------------------------------

  function EvalRange(p: Program, dev: Device, r: (nat, nat), depth: nat, fuel: nat, m: Mem): Outcome
    requires depth <= MAX_DEPTH + 1
    decreases MAX_DEPTH + 1 - depth, 3, 0
  {
    if depth > MAX_DEPTH then Failed else EvalList(p, dev, Range(r.0, r.1), depth, fuel, m)
  }

  function EvalList(p: Program, dev: Device, indices: seq<nat>, depth: nat, fuel: nat, m: Mem): Outcome
    requires depth <= MAX_DEPTH
    decreases MAX_DEPTH + 1 - depth, 2, |indices|
  {
    if indices == [] then Done(m)
    else
      match EvalInstr(p, dev, indices[0], depth, fuel, m)
      case Done(m') => EvalList(p, dev, indices[1..], depth, fuel, m')
      case stopped => stopped
  }

  function EvalInstr(p: Program, dev: Device, i: nat, depth: nat, fuel: nat, m: Mem): Outcome
    requires depth <= MAX_DEPTH
    decreases MAX_DEPTH + 1 - depth, 1, 0
  {
    if i >= |p.instrs| then Failed
    else
      var ins := p.instrs[i];
      match ins.op
      case Nop => Done(m)
      case While => if Cramped(dev, depth) then Truncated(m) else EvalWhile(p, dev, ins, depth, fuel, fuel, m)
      case For =>
        if ins.b > 0 && Cramped(dev, depth) then Truncated(m)
        else EvalFor(p, dev, ins, Trips(dev.walker, ins.b), depth, fuel, m)
      case If =>
        if Cramped(dev, depth) then if Bare(p, Selected(ins, m)) then Done(m) else Failed
        else EvalRange(p, dev, Selected(ins, m), depth + 1, fuel, m)
      case _ => if Schedulable(p.tg, ins) then Done(Whole(p, dev, i, m)) else Failed
  }

  /** Condition list, test, body, again; at most `left` tests. */
  function EvalWhile(p: Program, dev: Device, ins: Instr, depth: nat, fuel: nat, left: nat, m: Mem): Outcome
    requires depth <= MAX_DEPTH
    decreases MAX_DEPTH + 1 - depth, 0, left
  {
    if left == 0 then OutOfFuel
    else
      match EvalRange(p, dev, FirstRange(ins), depth + 1, fuel, m)
      case Done(tested) =>
        if Get(tested, Cell(ins.dst, 0)) == 0 then Done(tested)
        else (
          match EvalRange(p, dev, SecondRange(ins), depth + 1, fuel, tested)
          case Done(m') => EvalWhile(p, dev, ins, depth, fuel, left - 1, m')
          case stopped => stopped
        )
      case stopped => stopped
  }

  function EvalFor(p: Program, dev: Device, ins: Instr, trips: nat, depth: nat, fuel: nat, m: Mem): Outcome
    requires depth <= MAX_DEPTH
    decreases MAX_DEPTH + 1 - depth, 0, trips
  {
    if trips == 0 then Done(m)
    else
      match EvalRange(p, dev, SecondRange(ins), depth + 1, fuel, m)
      case Done(m') => EvalFor(p, dev, ins, trips - 1, depth, fuel, m')
      case stopped => stopped
  }

  /** Running the whole program, from its root range. */
  function Execute(p: Program, dev: Device, fuel: nat, m: Mem): Outcome {
    EvalRange(p, dev, (0, p.mainLen), 0, fuel, m)
  }

  // ----- programs the interpreter accepts ---------------------------------------------------

  /** Every instruction reachable from the range is in bounds and known, and regions nest no
      deeper than the interpreter allows. */
  predicate Nested(p: Program, r: (nat, nat), depth: nat)
    requires depth <= MAX_DEPTH
    decreases MAX_DEPTH - depth, 1
  {
    && r.0 + r.1 <= |p.instrs|
    && forall i: nat | r.0 <= i < r.0 + r.1 :: InstrNested(p, i, depth)
  }

  predicate InstrNested(p: Program, i: nat, depth: nat)
    requires depth <= MAX_DEPTH && i < |p.instrs|
    decreases MAX_DEPTH - depth, 0
  {
    var ins := p.instrs[i];
    && (ins.IsCompute() ==> Schedulable(p.tg, ins))
    && (ins.IsRegion() ==>
      depth < MAX_DEPTH && Nested(p, FirstRange(ins), depth + 1) && Nested(p, SecondRange(ins), depth + 1))
  }

  predicate ListNested(p: Program, indices: seq<nat>, depth: nat)
    requires depth <= MAX_DEPTH
  {
    forall x | 0 <= x < |indices| :: indices[x] < |p.instrs| && InstrNested(p, indices[x], depth)
  }

  /** The interpreter has finished, or would go on with more fuel. */
  predicate Accepted(o: Outcome) {
    o.Done? || o.OutOfFuel?
  }

  /** A nested program is never rejected, whatever it computes. */
  lemma {:induction false} NestedAccepted(p: Program, dev: Device, r: (nat, nat), depth: nat, fuel: nat, m: Mem)
    requires depth <= MAX_DEPTH && Nested(p, r, depth) && dev.walker == Simulator
    ensures Accepted(EvalRange(p, dev, r, depth, fuel, m))
    decreases MAX_DEPTH + 1 - depth, 3, 0
  {
    ListAccepted(p, dev, Range(r.0, r.1), depth, fuel, m);
  }

  lemma {:induction false} ListAccepted(p: Program, dev: Device, indices: seq<nat>, depth: nat, fuel: nat, m: Mem)
    requires depth <= MAX_DEPTH && ListNested(p, indices, depth) && dev.walker == Simulator
    ensures Accepted(EvalList(p, dev, indices, depth, fuel, m))
    decreases MAX_DEPTH + 1 - depth, 2, |indices|
  {
    if indices == [] {
    } else {
      var ins := p.instrs[indices[0]];
      assert InstrNested(p, indices[0], depth);
      match ins.op {
        case While => WhileAccepted(p, dev, ins, depth, fuel, fuel, m);
        case For => ForAccepted(p, dev, ins, ins.b, depth, fuel, m);
        case If => NestedAccepted(p, dev, Selected(ins, m), depth + 1, fuel, m);
        case _ =>
      }
      var first := EvalInstr(p, dev, indices[0], depth, fuel, m);
      if first.Done? {
        ListAccepted(p, dev, indices[1..], depth, fuel, first.mem);
      }
    }
  }

  lemma {:induction false} WhileAccepted(p: Program, dev: Device, ins: Instr, depth: nat, fuel: nat, left: nat, m: Mem)
    requires depth < MAX_DEPTH && Nested(p, FirstRange(ins), depth + 1) && Nested(p, SecondRange(ins), depth + 1)
    requires dev.walker == Simulator
    ensures Accepted(EvalWhile(p, dev, ins, depth, fuel, left, m))
    decreases MAX_DEPTH + 1 - depth, 0, left
  {
    if left == 0 {
    } else {
      NestedAccepted(p, dev, FirstRange(ins), depth + 1, fuel, m);
      var tested := EvalRange(p, dev, FirstRange(ins), depth + 1, fuel, m);
      if tested.Done? {
        NestedAccepted(p, dev, SecondRange(ins), depth + 1, fuel, tested.mem);
        var body := EvalRange(p, dev, SecondRange(ins), depth + 1, fuel, tested.mem);
        if body.Done? {
          WhileAccepted(p, dev, ins, depth, fuel, left - 1, body.mem);
        }
      }
    }
  }

  lemma {:induction false} ForAccepted(p: Program, dev: Device, ins: Instr, trips: nat, depth: nat, fuel: nat, m: Mem)
    requires depth < MAX_DEPTH && Nested(p, SecondRange(ins), depth + 1) && dev.walker == Simulator
    ensures Accepted(EvalFor(p, dev, ins, trips, depth, fuel, m))
    decreases MAX_DEPTH + 1 - depth, 0, trips
  {
    if trips == 0 {
    } else {
      NestedAccepted(p, dev, SecondRange(ins), depth + 1, fuel, m);
      var body := EvalRange(p, dev, SecondRange(ins), depth + 1, fuel, m);
      if body.Done? {
        ForAccepted(p, dev, ins, trips - 1, depth, fuel, body.mem);
      }
    }
  }

  // ----- lists of instructions ----------------------------------------------------------------

  lemma {:induction false} EvalConcat(p: Program, dev: Device, a: seq<nat>, b: seq<nat>, depth: nat, fuel: nat, m: Mem)
    requires depth <= MAX_DEPTH
    ensures EvalList(p, dev, a + b, depth, fuel, m) ==
      match EvalList(p, dev, a, depth, fuel, m)
      case Done(m') => EvalList(p, dev, b, depth, fuel, m')
      case stopped => stopped
    decreases |a|
  {
    if a == [] {
      assert a + b == b;
    } else {
      assert (a + b)[1..] == a[1..] + b;
      var first := EvalInstr(p, dev, a[0], depth, fuel, m);
      if first.Done? {
        EvalConcat(p, dev, a[1..], b, depth, fuel, first.mem);
      }
    }
  }

  lemma {:induction false} EvalLive(p: Program, dev: Device, indices: seq<nat>, depth: nat, fuel: nat, m: Mem)
    requires depth <= MAX_DEPTH && InRange(p, indices)
    ensures EvalList(p, dev, Live(p, indices), depth, fuel, m) == EvalList(p, dev, indices, depth, fuel, m)
    decreases |indices|
  {
    if indices == [] {
    } else {
      var first := EvalInstr(p, dev, indices[0], depth, fuel, m);
      var rest := Live(p, indices[1..]);
      assert ([indices[0]] + rest)[1..] == rest;
      if first.Done? {
        EvalLive(p, dev, indices[1..], depth, fuel, first.mem);
      }
    }
  }

  function RunWhole(p: Program, dev: Device, part: seq<nat>, m: Mem): Mem
    requires AllSchedulable(p, part)
  {
    if part == [] then m else RunWhole(p, dev, part[1..], Whole(p, dev, part[0], m))
  }

  lemma {:induction false} EvalCompute(p: Program, dev: Device, part: seq<nat>, depth: nat, fuel: nat, m: Mem)
    requires depth <= MAX_DEPTH && AllSchedulable(p, part)
    ensures EvalList(p, dev, part, depth, fuel, m) == Done(RunWhole(p, dev, part, m))
    decreases |part|
  {
    if part == [] {
    } else {
      assert EvalInstr(p, dev, part[0], depth, fuel, m) == Done(Whole(p, dev, part[0], m));
      EvalCompute(p, dev, part[1..], depth, fuel, Whole(p, dev, part[0], m));
    }
  }

  lemma {:induction false} RunWholeIsSteps(p: Program, dev: Device, all: seq<nat>, part: seq<nat>, m: Mem)
    requires PhaseOk(p, dev, all) && AllSchedulable(p, part)
    requires forall x | 0 <= x < |part| :: part[x] in all
    ensures Run(Act(p, dev), PhaseSteps(p, part), m) == RunWhole(p, dev, part, m)
    decreases |part|
  {
    if part == [] {
    } else {
      var head := TileSteps(part[0], 0, Tiles(p.tg, p.instrs[part[0]]));
      WholeByTiles(p, dev, all, part[0], m);
      RunConcat(Act(p, dev), head, PhaseSteps(p, part[1..]), m);
      RunWholeIsSteps(p, dev, all, part[1..], Whole(p, dev, part[0], m));
    }
  }

  /** One phase, packed and interleaved at will, is the interpreter run on its instructions. */
  lemma PhaseIsReference(p: Program, dev: Device, owner: seq<nat>, part: seq<nat>, units: seq<Unit>, n: pos,
                         sched: seq<nat>, depth: nat, fuel: nat, m: Mem)
    requires PhaseOk(p, dev, part) && UnitsFor(p, owner, part, units) && depth <= MAX_DEPTH
    requires PackedOk(owner, units, n) && ValidSched(PackedSteps(owner, units, n), sched)
    ensures EvalList(p, dev, part, depth, fuel, m)
        == Done(Run(Act(p, dev), Weave(PackedSteps(owner, units, n), sched), m))
  {
    PhaseTheorem(p, dev, owner, part, units, n, sched, m);
    RunWholeIsSteps(p, dev, part, part, m);
    EvalCompute(p, dev, part, depth, fuel, m);
  }
}
