/** Tensor instructions as the scheduler sees them, the tile tasks they become, and the
    dependence tests between them. */
module Isa {
  import opened Arith

  /** One element of one buffer. Distinct buffers are distinct storage here. */
  datatype Cell = Cell(buf: nat, idx: nat)
  type Mem = map<Cell, int>

  /** The arena starts zeroed, so a cell that was never written reads as 0. */
  function Get(m: Mem, c: Cell): int {
    if c in m then m[c] else 0
  }

  datatype Op = Add | Mul | Sub | Fill | Iota | Nop | While | For | If | Ext(code: nat)

  /** `dst`, `a`, `b`: buffer ids, or instruction ranges for region operations:
      While has condition [a, a+b) and body [n, n+imm), For has body [n, n+imm) and trip count
      `b`, If has branches [a, a+b) and [n, n+imm). `disjoint` is 0 or a group id. */
  datatype Instr = Instr(op: Op, dst: nat, a: nat, b: nat, n: nat, imm: nat, imm2: nat,
                         aux: nat, disjoint: nat)
  {
    predicate IsRegion() { op in {While, For, If} }
    predicate IsCompute() { !IsRegion() && op != Nop }
  }

  datatype Task = Task(tileOp: nat, dst: nat, a: nat, b: nat, p0: nat, p1: nat, p2: nat, p3: nat,
                       p4: nat, p5: nat, p6: nat, p7: nat, dtype: nat, adtype: nat)

  const TILE_EW := 0
  const TILE_MMA := 1
  const TILE_REDUCE_PART := 3
  const TILE_REDUCE_COMB := 4
  const TILE_RED_SEG := 10
  const TILE_SOFTMAX_SEG := 11
  const TILE_LAYERNORM_SEG := 12
  const TILE_FLASH_ATTN := 14
  const TILE_RED_STRIDED := 15
  const MAX_TILE_OP := 18

  /** What the scheduler takes from outside: the operation registry (read sets and task
      mappings of operations it does not build in), tile sizes, and the cost table. */
  datatype Target = Target(readSet: Instr -> set<nat>, toTask: Instr -> Task,
                           tileSize: pos, mmaT: pos, unitCost: nat -> real)

  function Reads(tg: Target, ins: Instr): set<nat> {
    match ins.op
    case Add | Mul | Sub => {ins.a, ins.b}
    case Fill | Iota | Nop => {}
    case _ => tg.readSet(ins)
  }

  function Writes(ins: Instr): set<nat> {
    if ins.op == Nop then {} else {ins.dst}
  }

  function EwTask(ins: Instr, sub: nat, p2: nat, p3: nat): Task {
    Task(TILE_EW, ins.dst, ins.a, ins.b, sub, ins.n, p2, p3, 0, 0, 0, 0, 0, 0)
  }

  /** The built-in elementwise operations map directly; every other one through the registry. */
  function TaskOf(tg: Target, ins: Instr): Task {
    match ins.op
    case Add => EwTask(ins, 0, ins.imm, ins.imm2)
    case Mul => EwTask(ins, 1, ins.imm, ins.imm2)
    case Sub => EwTask(ins, 2, ins.imm, ins.imm2)
    case Fill => EwTask(ins, 18, ins.imm, 0)
    case _ => tg.toTask(ins)
  }

  function CeilDiv(a: nat, b: pos): nat { (a + b - 1) / b }

  function Max(a: int, b: int): int { if a < b then b else a }

  function NTiles(tg: Target, t: Task): nat
    requires t.tileOp <= MAX_TILE_OP
  {
    if t.tileOp == TILE_RED_STRIDED then Max(1, CeilDiv(t.p0, tg.tileSize))
    else if t.tileOp == TILE_MMA then CeilDiv(t.p0, tg.mmaT) * CeilDiv(t.p1, tg.mmaT) * Max(1, t.p3)
    else if t.tileOp == TILE_REDUCE_PART then if t.p1 != 0 then Max(1, CeilDiv(t.p0, t.p1)) else 1
    else if t.tileOp == TILE_REDUCE_COMB then 1
    else if t.tileOp in {TILE_RED_SEG, TILE_SOFTMAX_SEG, TILE_LAYERNORM_SEG} then Max(1, t.p0)
    else if t.tileOp == TILE_FLASH_ATTN then Max(1, t.p1 * t.p2)
    else Max(1, CeilDiv(t.p1, tg.tileSize))
  }

  /** Elementwise subops whose p2/p3 carry strided-view descriptors of operands a/b. */
  predicate IsViewSubop(sub: nat) {
    sub <= 17 || 25 <= sub <= 34
  }

  /** Buffers that an instruction reads through a strided view rather than tile by tile. */
  function Viewed(tg: Target, ins: Instr): set<nat> {
    var t := TaskOf(tg, ins);
    if t.tileOp == TILE_EW && IsViewSubop(t.p0)
    then (if t.p2 != 0 then {t.a} else {}) + (if t.p3 != 0 then {t.b} else {})
    else {}
  }

  /** Elementwise in the scheduler's sense: output tile T reads only input tile T. */
  predicate IsMap(tg: Target, ins: Instr) {
    TaskOf(tg, ins).tileOp == TILE_EW
  }

  /** A compute instruction that the scheduler can turn into tiles: a known tile operation, and
      for an elementwise one as many elements as the instruction says, outside any group. */
  predicate Schedulable(tg: Target, ins: Instr) {
    var t := TaskOf(tg, ins);
    && ins.IsCompute() && t.tileOp <= MAX_TILE_OP
    && (IsMap(tg, ins) ==> t.p1 == ins.n && ins.disjoint == 0)
  }

  function Tiles(tg: Target, ins: Instr): nat
    requires Schedulable(tg, ins)
  {
    NTiles(tg, TaskOf(tg, ins))
  }

  /** Whether the later instruction depends on the earlier one: RAW, WAW or WAR, except
      between two members of one disjoint group over their common destination. */
  predicate Depends(tg: Target, later: Instr, earlier: Instr) {
    var grouped := earlier.disjoint != 0 && earlier.disjoint == later.disjoint;
    var aw := if grouped then Writes(earlier) - Writes(later) else Writes(earlier);
    var bw := if grouped then Writes(later) - Writes(earlier) else Writes(later);
    Reads(tg, later) * aw != {} || bw * aw != {} || Reads(tg, earlier) * bw != {}
  }

  /** A dependence that a barrier must publish, because its two ends may sit on two lanes. */
  predicate CrossLaneDep(tg: Target, later: Instr, earlier: Instr) {
    && Depends(tg, later, earlier)
    && !(IsMap(tg, earlier) && IsMap(tg, later) && earlier.n == later.n
         && Writes(earlier) !! Writes(later))
  }

  datatype Program = Program(instrs: seq<Instr>, mainLen: nat, tg: Target, fuse: bool)

  /** What starts a new phase; without fusion every dependence does. */
  predicate Boundary(p: Program, later: nat, earlier: nat)
    requires later < |p.instrs| && earlier < |p.instrs|
  {
    if p.fuse then CrossLaneDep(p.tg, p.instrs[later], p.instrs[earlier])
    else Depends(p.tg, p.instrs[later], p.instrs[earlier])
  }

  predicate InRange(p: Program, indices: seq<nat>) {
    forall x | 0 <= x < |indices| :: indices[x] < |p.instrs|
  }
}
