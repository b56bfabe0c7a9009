/** The frame-walk refinement: from the start of a block, the machine performs exactly what the
    recursive interpreter performs on the block's instruction range. */
module FrameWalk {
  import opened Isa
  import opened Streams
  import opened Packing
  import opened OnePhase
  import opened PhaseUnits
  import opened Reference
  import opened Levels
  import opened PhaseCount
  import opened Layout
  import opened Scheduler
  import opened Engine
  import opened RoundLaws
  import opened Simulation

  // ----- what a block means ---------------------------------------------------------------------

  /** The interpreter on the levels of a block from `k` on. */
  function Meaning(w: World, bid: nat, k: nat, fuel: nat, m: Mem): Outcome
    requires bid < |w.blocks| && k <= |w.blocks[bid].lvls| && w.blocks[bid].depth <= MAX_DEPTH
  {
    EvalList(w.p, w.dev, LvlInstrs(w.blocks[bid].lvls[k..]), w.blocks[bid].depth, fuel, m)
  }

  /** The phases it runs on them. */
  function BlockRun(w: World, bid: nat, k: nat, fuel: nat, m: Mem): nat
    requires bid < |w.blocks| && k <= |w.blocks[bid].lvls| && w.blocks[bid].depth <= MAX_DEPTH
  {
    LevelsRun(w.p, w.dev, LevelsOf(w.blocks[bid].lvls[k..]), w.blocks[bid].depth, fuel, m)
  }

  function RegionMeaning(w: World, bid: nat, k: nat, fuel: nat, m: Mem): Outcome
    requires IsCtrl(w, bid, k) && w.blocks[bid].depth <= MAX_DEPTH
  {
    EvalInstr(w.p, w.dev, w.blocks[bid].lvls[k].idx, w.blocks[bid].depth, fuel, m)
  }

  function LvlRun(w: World, bid: nat, k: nat, fuel: nat, m: Mem): nat
    requires bid < |w.blocks| && k < |w.blocks[bid].lvls| && w.blocks[bid].depth <= MAX_DEPTH
  {
    match w.blocks[bid].lvls[k]
    case Work(part, _) => PartRun(w.p, part)
    case Ctrl(i, _) => LevelRun(w.p, w.dev, Region(i), w.blocks[bid].depth, fuel, m)
  }

  /** The end of a run: where the lanes stand, and how much has been launched by the time the
      collected batch is. */
  ghost predicate EndsAt(w: World, ctx: Ctx, bid: nat, row: seq<nat>, total: nat, end: State)
    requires bid < |w.blocks| && Shaped(w.n, w.blocks[bid]) && |ctx.base| == |ctx.widx| == |row| == w.n
  {
    |end.pend| == w.n && end.stacks == At(w.n, ctx, w.blocks[bid], row) && Launched(end, end.pend) == total
  }

  lemma Basics(w: World, bid: nat)
    requires WorldOk(w) && bid < |w.blocks|
    ensures PickOk(w.mc) && |w.mc.streams| == w.n && w.mc.kind == w.dev.walker
    ensures w.blocks[bid].depth <= MAX_DEPTH && Shaped(w.n, w.blocks[bid])
  {
    BlockFacts(w, bid);
  }

  /** Splitting off the first level. */
  lemma FirstLevel(w: World, bid: nat, k: nat, fuel: nat, m: Mem)
    requires bid < |w.blocks| && k < |w.blocks[bid].lvls| && w.blocks[bid].depth <= MAX_DEPTH
    ensures Meaning(w, bid, k, fuel, m) ==
              match EvalList(w.p, w.dev, FirstInstrs(w.blocks[bid].lvls[k]), w.blocks[bid].depth, fuel, m)
              case Done(m') => Meaning(w, bid, k + 1, fuel, m')
              case stopped => stopped
  {
    var b := w.blocks[bid];
    assert b.lvls[k..][1..] == b.lvls[k + 1..];
    EvalConcat(w.p, w.dev, FirstInstrs(b.lvls[k]), LvlInstrs(b.lvls[k + 1..]), b.depth, fuel, m);
  }

  lemma FirstRun(w: World, bid: nat, k: nat, fuel: nat, m: Mem)
    requires bid < |w.blocks| && k < |w.blocks[bid].lvls| && w.blocks[bid].depth <= MAX_DEPTH
    ensures BlockRun(w, bid, k, fuel, m) ==
              LvlRun(w, bid, k, fuel, m)
              + match EvalList(w.p, w.dev, FirstInstrs(w.blocks[bid].lvls[k]), w.blocks[bid].depth, fuel, m)
                case Done(m') => BlockRun(w, bid, k + 1, fuel, m')
                case _ => 0
  {
    var b := w.blocks[bid];
    var rest := LevelsOf(b.lvls[k + 1..]);
    assert b.lvls[k..][1..] == b.lvls[k + 1..];
    if b.lvls[k].Work? && b.lvls[k].part == [] {
      assert LevelsOf(b.lvls[k..]) == [] + rest == rest;
      assert EvalList(w.p, w.dev, [], b.depth, fuel, m) == Done(m);
    } else {
      var level := if b.lvls[k].Work? then Compute(b.lvls[k].part) else Region(b.lvls[k].idx);
      assert LevelsOf(b.lvls[k..]) == [level] + rest;
      assert ([level] + rest)[1..] == rest && InstrsOf(level) == FirstInstrs(b.lvls[k]);
      assert LevelRun(w.p, w.dev, level, b.depth, fuel, m) == LvlRun(w, bid, k, fuel, m);
      hide EvalList, LevelRun, LevelsOf, LvlRun;
    }
  }

  lemma NothingLeft(w: World, bid: nat, fuel: nat, m: Mem)
    requires bid < |w.blocks| && w.blocks[bid].depth <= MAX_DEPTH
    ensures Meaning(w, bid, |w.blocks[bid].lvls|, fuel, m) == Done(m)
    ensures BlockRun(w, bid, |w.blocks[bid].lvls|, fuel, m) == 0
  {
    assert w.blocks[bid].lvls[|w.blocks[bid].lvls|..] == [];
  }

  lemma OneInstr(w: World, i: nat, depth: nat, fuel: nat, m: Mem)
    requires depth <= MAX_DEPTH
    ensures EvalList(w.p, w.dev, [i], depth, fuel, m) == EvalInstr(w.p, w.dev, i, depth, fuel, m)
  {
    var o := EvalInstr(w.p, w.dev, i, depth, fuel, m);
    if o.Done? {
      assert EvalList(w.p, w.dev, [i][1..], depth, fuel, o.mem) == Done(o.mem);
    }
  }

  // ----- entering ranges ------------------------------------------------------------------------

  /** What an If selects. */
  function Chosen(w: World, bid: nat, k: nat, m: Mem): nat
    requires IsCtrl(w, bid, k)
  {
    if Get(m, Cell(InsOf(w, bid, k).dst, 0)) != 0 then JobOf(w, bid, k).first else JobOf(w, bid, k).second
  }

  /** The block that a region instruction opens first, and with which phase. */
  function Opened(w: World, bid: nat, k: nat, m: Mem): (nat, int)
    requires IsCtrl(w, bid, k)
  {
    match InsOf(w, bid, k).op
    case For => (JobOf(w, bid, k).second, Counter(w.mc.kind, InsOf(w, bid, k).b))
    case If => (Chosen(w, bid, k, m), 2)
    case _ => (JobOf(w, bid, k).first, 0)
  }

  /** The patched control entry of one lane opens that block there, unless it is a loop of no
      trips or an empty branch. */
  lemma OpensBlock(kind: Walker, ins: Instr, first: Block, second: Block, m: Mem, L: nat, stack: seq<Frame>)
    requires ins.IsRegion() && HasLane(first, L) && HasLane(second, L) && stack != []
    ensures var e := PatchedControl(ins, first, second, L);
            match ins.op
            case For =>
              Execute1(kind, e, stack, m) ==
                if ins.b == 0 then Go(Bump(stack), [])
                else Enter(kind, stack, Start(second, L), Length(second, L), Counter(kind, ins.b))
            case If =>
              var c := if Get(m, Cell(ins.dst, 0)) != 0 then first else second;
              kind == Simulator ==>
                Execute1(kind, e, stack, m) ==
                  if Length(c, L) == 0 then Go(Bump(stack), [])
                  else Enter(kind, stack, Start(c, L), Length(c, L), 2)
            case _ => Execute1(kind, e, stack, m) == Enter(kind, stack, Start(first, L), Length(first, L), 0)
  {
    hide Enter, Bump;
  }

  /** The walker opens the block without an event. */
  predicate WalksIn(w: World, bid: nat, k: nat)
    requires IsCtrl(w, bid, k)
  {
    && (CanNest(w.mc.kind, w.blocks[bid].depth) || NoTrips(InsOf(w, bid, k)))
    && (w.mc.kind == Simulator || InsOf(w, bid, k).op != If)
  }

  lemma OpenLane(w: World, ctx: Ctx, bid: nat, k: nat, m: Mem, L: nat)
    requires WorldOk(w) && IsCtrl(w, bid, k) && CtxOk(w.n, ctx, w.blocks[bid].depth) && L < w.n && WalksIn(w, bid, k)
    ensures |w.mc.streams| == w.n && Shaped(w.n, w.blocks[bid])
    ensures var c, phase := Opened(w, bid, k, m).0, Opened(w, bid, k, m).1;
            && c < |w.blocks| && HasLane(w.blocks[c], L) && Shaped(w.n, w.blocks[c])
            && var stream, stack := w.mc.streams[L], At(w.n, ctx, w.blocks[bid], w.blocks[bid].at[k])[L];
               MoveLane(w.mc.kind, stream, stack, m)
                 == if Skips(w, bid, k, m, L) then Go(At(w.n, ctx, w.blocks[bid], After(w.n, w.blocks[bid], k))[L], [])
                    else Go(At(w.n, Inner(w.n, ctx, w.blocks[bid], k, phase), w.blocks[c], w.blocks[c].at[0])[L], [])
  {
    CtrlFacts(w, bid, k);
    CtrlLane(w, bid, k, L);
    PassLane(w, ctx, bid, k, L);
    LaneStack(w.n, ctx, w.blocks[bid], w.blocks[bid].at[k], L);
    var b, j, ins := w.blocks[bid], JobOf(w, bid, k), InsOf(w, bid, k);
    var c, phase := Opened(w, bid, k, m).0, Opened(w, bid, k, m).1;
    hide WorldOk, RangeSafe, Execute1, Bump, PatchedControl;
    forall stack: seq<Frame> | stack != []
      ensures Execute1(w.mc.kind, w.mc.streams[L][b.at[k][L]], stack, m)
           == if Skips(w, bid, k, m, L) then Go(Bump(stack), [])
             else Enter(w.mc.kind, stack, Start(w.blocks[c], L), Length(w.blocks[c], L), phase)
    {
      OpensBlock(w.mc.kind, ins, w.blocks[j.first], w.blocks[j.second], m, L, stack);
    }
    if !Skips(w, bid, k, m, L) {
      EnterLane(w, ctx, bid, k, w.blocks[c], phase, m, L);
    }
  }

  /** A lane steps over a loop of no trips and over a branch that is empty there. */
  predicate Skips(w: World, bid: nat, k: nat, m: Mem, L: nat)
    requires IsCtrl(w, bid, k)
  {
    var ins, c := InsOf(w, bid, k), Opened(w, bid, k, m).0;
    if ins.op == For then ins.b == 0
    else ins.op == If && c < |w.blocks| && HasLane(w.blocks[c], L) && Length(w.blocks[c], L) == 0
  }

  /** The state at the control entry of level `k`, nothing collected. */
  function AtLevel(w: World, ctx: Ctx, bid: nat, k: nat, m: Mem, d: nat): State
    requires bid < |w.blocks| && Shaped(w.n, w.blocks[bid]) && k <= |w.blocks[bid].lvls|
    requires |ctx.base| == |ctx.widx| == w.n
  {
    State(At(w.n, ctx, w.blocks[bid], w.blocks[bid].at[k]), Nothing(w.n), m, d)
  }

  /** No lane skips: all of them enter the block. */
  lemma EntersBlock(w: World, ctx: Ctx, bid: nat, k: nat, m: Mem, d: nat)
    requires WorldOk(w) && IsCtrl(w, bid, k) && CtxOk(w.n, ctx, w.blocks[bid].depth) && WalksIn(w, bid, k)
    requires forall L: nat | L < w.n :: !Skips(w, bid, k, m, L)
    ensures Shaped(w.n, w.blocks[bid]) && PickOk(w.mc)
    ensures var c, phase := Opened(w, bid, k, m).0, Opened(w, bid, k, m).1;
            && c < |w.blocks| && Shaped(w.n, w.blocks[c])
            && Leads(w.mc, AtLevel(w, ctx, bid, k, m, d),
              AtLevel(w, Inner(w.n, ctx, w.blocks[bid], k, phase), c, 0, m, d), 0)
  {
    RegionSetting(w, ctx, bid, k);
    OpenLane(w, ctx, bid, k, m, 0);
    var c, phase := Opened(w, bid, k, m).0, Opened(w, bid, k, m).1;
    var inner := Inner(w.n, ctx, w.blocks[bid], k, phase);
    var from, next := AtLevel(w, ctx, bid, k, m, d), AtLevel(w, inner, c, 0, m, d);
    AtOk(w, ctx, w.blocks[bid], w.blocks[bid].at[k], Nothing(w.n), m, d);
    AtOk(w, inner, w.blocks[c], w.blocks[c].at[0], Nothing(w.n), m, d);
    hide WorldOk, MoveLane, IsChild;
    forall L | 0 <= L < |w.mc.streams|
      ensures MoveLane(w.mc.kind, w.mc.streams[L], from.stacks[L], from.mem) == Go(next.stacks[L], [])
    {
      OpenLane(w, ctx, bid, k, m, L);
    }
    MovesSlide(w.mc, from, next);
    Slide(w.mc, from, next);
  }

  /** Every lane skips: all of them step past the control entry. */
  lemma SkipsBlock(w: World, ctx: Ctx, bid: nat, k: nat, m: Mem, d: nat)
    requires WorldOk(w) && IsCtrl(w, bid, k) && CtxOk(w.n, ctx, w.blocks[bid].depth) && WalksIn(w, bid, k)
    requires forall L: nat | L < w.n :: Skips(w, bid, k, m, L)
    ensures Shaped(w.n, w.blocks[bid]) && PickOk(w.mc)
    ensures var next := State(At(w.n, ctx, w.blocks[bid], After(w.n, w.blocks[bid], k)), Nothing(w.n), m, d);
            Leads(w.mc, AtLevel(w, ctx, bid, k, m, d), next, 0) && Settled(w.mc, next, m)
  {
    RegionSetting(w, ctx, bid, k);
    var b := w.blocks[bid];
    var from, next := AtLevel(w, ctx, bid, k, m, d), State(At(w.n, ctx, b, After(w.n, b, k)), Nothing(w.n), m, d);
    AtOk(w, ctx, b, b.at[k], Nothing(w.n), m, d);
    AtOk(w, ctx, b, After(w.n, b, k), Nothing(w.n), m, d);
    hide WorldOk, MoveLane, IsChild;
    forall L | 0 <= L < |w.mc.streams|
      ensures MoveLane(w.mc.kind, w.mc.streams[L], from.stacks[L], from.mem) == Go(next.stacks[L], [])
    {
      OpenLane(w, ctx, bid, k, m, L);
    }
    MovesSlide(w.mc, from, next);
    Slide(w.mc, from, next);
    NothingSettles(w.mc, next.stacks, w.n, m, d);
  }

  // ----- branches ------------------------------------------------------------------------------

  /** A branch without barriers and control entries: at most one level of compute. */
  predicate Light(b: Block) {
    |b.lvls| == 0 || (|b.lvls| == 1 && b.lvls[0].Work?)
  }

  /** Any other branch has entries in every lane. */
  lemma HeavyLength(w: World, cid: nat, L: nat)
    requires WorldOk(w) && cid < |w.blocks| && !Light(w.blocks[cid]) && L < w.n
    ensures HasLane(w.blocks[cid], L) && Length(w.blocks[cid], L) > 0
  {
    BlockFacts(w, cid);
    hide WorldOk, Packed, UnitsFor, Nested;
    var c := w.blocks[cid];
    BlockHasLane(w.p, w.n, w.mc.streams, w.owner, w.jobs, c, L);
    RowsAscend(w.p, w.n, w.mc.streams, w.owner, w.jobs, c, |c.lvls|, 1, L);
    assert RowAt(w.n, w.mc.streams, w.jobs, c, |c.lvls|, 0, L);
    if c.lvls[0].Work? {
      assert |w.mc.streams[L][c.at[0][L]..c.at[1][L]]| >= 1;
    }
  }

  /** What a light branch collects. */
  function LightPend(w: World, c: Block): (pend: seq<seq<nat>>)
    requires Light(c) && Shaped(w.n, c)
    ensures |pend| == w.n
  {
    if c.lvls == [] then Nothing(w.n) else LevelPend(w.n, c, 0)
  }

  lemma EndOfBranch(w: World, ctx: Ctx, bid: nat, k: nat, c: Block, m: Mem, L: nat)
    requires WorldOk(w) && IsCtrl(w, bid, k) && CtxOk(w.n, ctx, w.blocks[bid].depth) && L < w.n == |w.mc.streams|
    requires InsOf(w, bid, k).op == If && Shaped(w.n, c) && c.depth == w.blocks[bid].depth + 1
    ensures Shaped(w.n, w.blocks[bid])
    ensures var b := w.blocks[bid];
            MoveLane(w.mc.kind, w.mc.streams[L], At(w.n, Inner(w.n, ctx, b, k, 2), c, c.at[|c.lvls|])[L], m)
                == Go(At(w.n, ctx, b, After(w.n, b, k))[L], [])
  {
    CtrlFacts(w, bid, k);
    CtrlLane(w, bid, k, L);
    PassLane(w, ctx, bid, k, L);
    InnerStack(w, ctx, bid, k, c, 2, c.at[|c.lvls|], L);
    hide WorldOk, RangeSafe, MoveLane, Bump, StackOk;
    var b := w.blocks[bid];
    var f := Frame(c.at[|c.lvls|][L], c.at[|c.lvls|][L], b.at[k][L], 2);
    EndOfRange(w.mc.kind, w.mc.streams[L], At(w.n, ctx, b, b.at[k])[L], f, m);
  }

  /** A light branch in one lane, from its start: its entries are collected and the lane stands
      behind the If. */
  lemma LightInside(w: World, ctx: Ctx, bid: nat, k: nat, cid: nat, m: Mem, L: nat)
    requires WorldOk(w) && IsCtrl(w, bid, k) && CtxOk(w.n, ctx, w.blocks[bid].depth) && L < w.n
    requires InsOf(w, bid, k).op == If && cid < |w.blocks| && Light(w.blocks[cid])
    requires Shaped(w.n, w.blocks[bid]) && Shaped(w.n, w.blocks[cid]) && w.blocks[cid].depth == w.blocks[bid].depth + 1
    ensures |w.mc.streams| == w.n
    ensures var b, c := w.blocks[bid], w.blocks[cid];
            var inside, next := At(w.n, Inner(w.n, ctx, b, k, 2), c, c.at[0])[L], At(w.n, ctx, b, After(w.n, b, k))[L];
            && StackOk(inside) && StackOk(next)
            && WalkLane(w.mc.kind, w.mc.streams[L], inside, m)
              == EmitAll(LightPend(w, c)[L], WalkLane(w.mc.kind, w.mc.streams[L], next, m))
  {
    hide MoveLane, Packed;
    var b, c := w.blocks[bid], w.blocks[cid];
    var inner := Inner(w.n, ctx, b, k, 2);
    RegionSetting(w, ctx, bid, k);
    LaneStack(w.n, ctx, b, After(w.n, b, k), L);
    LaneStack(w.n, inner, c, c.at[0], L);
    LaneStack(w.n, inner, c, c.at[|c.lvls|], L);
    EndOfBranch(w, ctx, bid, k, c, m, L);
    hide IsChild, MoveLane, WalkLane, CtxOk;
    var stream, next := w.mc.streams[L], At(w.n, ctx, b, After(w.n, b, k))[L];
    MoveWalks(w.mc.kind, stream, At(w.n, inner, c, c.at[|c.lvls|])[L], m);
    if c.lvls != [] {
      WorkLaneWalk(w, inner, cid, 0, m, L);
      assert After(w.n, c, 0) == c.at[1];
      hide WorldOk;
      var body := LevelPend(w.n, c, 0)[L];
      EmitTwice(body, [], WalkLane(w.mc.kind, stream, next, m));
      assert body + [] == body;
    }
  }

  /** Where a light branch is empty, nothing is collected. */
  lemma LightEmpty(w: World, cid: nat, L: nat)
    requires WorldOk(w) && cid < |w.blocks| && L < w.n && Light(w.blocks[cid])
    requires HasLane(w.blocks[cid], L) && Length(w.blocks[cid], L) == 0
    ensures Shaped(w.n, w.blocks[cid]) && LightPend(w, w.blocks[cid])[L] == []
  {
    var c := w.blocks[cid];
    BlockFacts(w, cid);
    if c.lvls != [] {
      WorkLane(w, cid, 0, L);
      assert After(w.n, c, 0)[L] == c.at[1][L];
    }
  }

  /** A lane that moves on to `via` without collecting anything walks on as from there. */
  lemma WalksThrough(kind: Walker, stream: seq<Entry>, from: seq<Frame>, via: seq<Frame>, next: seq<Frame>,
                     es: seq<nat>, m: Mem)
    requires StackOk(from) && StackOk(via) && StackOk(next) && MoveLane(kind, stream, from, m) == Go(via, [])
    requires (via == next && es == [])
          || WalkLane(kind, stream, via, m) == EmitAll(es, WalkLane(kind, stream, next, m))
    ensures WalkLane(kind, stream, from, m) == EmitAll(es, WalkLane(kind, stream, next, m))
  {
    hide MoveLane, WalkLane, EmitAll;
    MoveWalks(kind, stream, from, m);
    EmitTwice([], es, WalkLane(kind, stream, next, m));
    assert [] + es == es;
  }

  /** The simulator's walk over a light branch, skipped in that lane or not. */
  lemma LightLane(w: World, ctx: Ctx, bid: nat, k: nat, m: Mem, L: nat)
    requires WorldOk(w) && IsCtrl(w, bid, k) && CtxOk(w.n, ctx, w.blocks[bid].depth) && L < w.n && WalksIn(w, bid, k)
    requires InsOf(w, bid, k).op == If && Chosen(w, bid, k, m) < |w.blocks| && Light(w.blocks[Chosen(w, bid, k, m)])
    ensures |w.mc.streams| == w.n && Shaped(w.n, w.blocks[bid]) && Shaped(w.n, w.blocks[Chosen(w, bid, k, m)])
    ensures var b := w.blocks[bid];
            var from, next := At(w.n, ctx, b, b.at[k])[L], At(w.n, ctx, b, After(w.n, b, k))[L];
            && StackOk(from) && StackOk(next)
            && WalkLane(w.mc.kind, w.mc.streams[L], from, m)
                 == EmitAll(LightPend(w, w.blocks[Chosen(w, bid, k, m)])[L],
                   WalkLane(w.mc.kind, w.mc.streams[L], next, m))
  {
    hide WorldOk, MoveLane, WalkLane, EmitAll, StackOk, At, Inner, LightPend, Light, WalksIn;
    var b, cid := w.blocks[bid], Chosen(w, bid, k, m);
    var c := w.blocks[cid];
    RegionSetting(w, ctx, bid, k);
    OpenLane(w, ctx, bid, k, m, L);
    LaneStack(w.n, ctx, b, b.at[k], L);
    LaneStack(w.n, ctx, b, After(w.n, b, k), L);
    var stream, from, next := w.mc.streams[L], At(w.n, ctx, b, b.at[k])[L], At(w.n, ctx, b, After(w.n, b, k))[L];
    if Skips(w, bid, k, m, L) {
      LightEmpty(w, cid, L);
      WalksThrough(w.mc.kind, stream, from, next, next, [], m);
    } else {
      LightInside(w, ctx, bid, k, cid, m, L);
      var inside := At(w.n, Inner(w.n, ctx, b, k, 2), c, c.at[0])[L];
      WalksThrough(w.mc.kind, stream, from, inside, next, LightPend(w, c)[L], m);
    }
  }

  /** Having collected a light branch is having run it. */
  lemma LightMeans(w: World, ctx: Ctx, bid: nat, k: nat, fuel: nat, m: Mem, d: nat)
    requires WorldOk(w) && IsCtrl(w, bid, k) && CtxOk(w.n, ctx, w.blocks[bid].depth)
    requires CanNest(w.mc.kind, w.blocks[bid].depth)
    requires InsOf(w, bid, k).op == If && Chosen(w, bid, k, m) < |w.blocks| && Light(w.blocks[Chosen(w, bid, k, m)])
    ensures Shaped(w.n, w.blocks[bid]) && Shaped(w.n, w.blocks[Chosen(w, bid, k, m)])
    ensures PickOk(w.mc) && w.blocks[bid].depth <= MAX_DEPTH
    ensures var end := State(At(w.n, ctx, w.blocks[bid], After(w.n, w.blocks[bid], k)),
        LightPend(w, w.blocks[Chosen(w, bid, k, m)]), m, d);
            && RegionMeaning(w, bid, k, fuel, m).Done? && Settled(w.mc, end, RegionMeaning(w, bid, k, fuel, m).mem)
            && Launched(end, end.pend) == d + LvlRun(w, bid, k, fuel, m)
  {
    var b, cid := w.blocks[bid], Chosen(w, bid, k, m);
    RegionSetting(w, ctx, bid, k);
    RangeMeans(w, cid, fuel, m);
    BranchMeans(w, bid, k, fuel, m);
    LightBlock(w, cid, fuel, m, At(w.n, ctx, b, After(w.n, b, k)), d);
    hide WorldOk, Settled, EvalList, LevelsRun, LightPend, Light;
  }

  /** The region means what its chosen block means. */
  lemma BranchMeans(w: World, bid: nat, k: nat, fuel: nat, m: Mem)
    requires WorldOk(w) && IsCtrl(w, bid, k) && InsOf(w, bid, k).op == If && w.blocks[bid].lvls[k].Ctrl?
    requires CanNest(w.mc.kind, w.blocks[bid].depth)
    ensures var cid := Chosen(w, bid, k, m);
            && cid < |w.blocks| && w.blocks[cid].depth <= MAX_DEPTH && w.blocks[bid].depth <= MAX_DEPTH
            && RegionMeaning(w, bid, k, fuel, m) == Meaning(w, cid, 0, fuel, m)
            && LvlRun(w, bid, k, fuel, m) == BlockRun(w, cid, 0, fuel, m)
  {
    hide WorldOk, EvalRange, RangeRun, RangeSafe, Shaped, EvalList, LevelsRun, LevelsOf, LvlInstrs;
    Basics(w, bid);
    CtrlFacts(w, bid, k);
    RangeMeans(w, Chosen(w, bid, k, m), fuel, m);
  }

  lemma LightBlock(w: World, cid: nat, fuel: nat, m: Mem, stacks: seq<seq<Frame>>, d: nat)
    requires WorldOk(w) && cid < |w.blocks| && Light(w.blocks[cid]) && RangeSafe(w.p, w.blocks[cid].range)
    ensures PickOk(w.mc) && w.blocks[cid].depth <= MAX_DEPTH && Shaped(w.n, w.blocks[cid])
    ensures var end := State(stacks, LightPend(w, w.blocks[cid]), m, d);
            && Meaning(w, cid, 0, fuel, m).Done? && Settled(w.mc, end, Meaning(w, cid, 0, fuel, m).mem)
            && Launched(end, end.pend) == d + BlockRun(w, cid, 0, fuel, m)
  {
    var c := w.blocks[cid];
    Basics(w, cid);
    if c.lvls == [] {
      NothingSettles(w.mc, stacks, w.n, m, d);
      NothingLeft(w, cid, fuel, m);
      NothingLaunched(w.n, State(stacks, Nothing(w.n), m, d));
    } else {
      WorkSettles(w, cid, 0, stacks, m, d);
      WorkEntries(w, cid, 0);
      EvalCompute(w.p, w.dev, c.lvls[0].part, c.depth, fuel, m);
      FirstLevel(w, cid, 0, fuel, m);
      FirstRun(w, cid, 0, fuel, m);
      NothingLeft(w, cid, fuel, RunWhole(w.p, w.dev, c.lvls[0].part, m));
      hide WorldOk, Settled, Meaning, BlockRun, EvalList, RunWhole, SomeEntry, HasTile;
    }
  }

  lemma LightSlides(w: World, ctx: Ctx, bid: nat, k: nat, m: Mem, d: nat)
    requires WorldOk(w) && IsCtrl(w, bid, k) && CtxOk(w.n, ctx, w.blocks[bid].depth) && WalksIn(w, bid, k)
    requires InsOf(w, bid, k).op == If && Chosen(w, bid, k, m) < |w.blocks| && Light(w.blocks[Chosen(w, bid, k, m)])
    ensures Shaped(w.n, w.blocks[bid]) && Shaped(w.n, w.blocks[Chosen(w, bid, k, m)]) && PickOk(w.mc)
    ensures Leads(w.mc, AtLevel(w, ctx, bid, k, m, d),
                  State(At(w.n, ctx, w.blocks[bid], After(w.n, w.blocks[bid], k)),
                      LightPend(w, w.blocks[Chosen(w, bid, k, m)]), m, d), 0)
  {
    hide Leads, At, After, StateOk;
    var b, c := w.blocks[bid], w.blocks[Chosen(w, bid, k, m)];
    RegionSetting(w, ctx, bid, k);
    var from, next := AtLevel(w, ctx, bid, k, m, d), State(At(w.n, ctx, b, After(w.n, b, k)), LightPend(w, c), m, d);
    AtOk(w, ctx, b, b.at[k], Nothing(w.n), m, d);
    AtOk(w, ctx, b, After(w.n, b, k), LightPend(w, c), m, d);
    hide WorldOk, IsChild, WalkLane, LightPend, Light;
    forall L | 0 <= L < |w.mc.streams|
      ensures LaneSlides(w.mc, from, next, L)
    {
      LightLane(w, ctx, bid, k, m, L);
      assert [] + LightPend(w, c)[L] == LightPend(w, c)[L];
      assert WalksVia(w.mc, from, next, L, LightPend(w, c)[L]);
    }
    Slide(w.mc, from, next);
  }

  // ----- branches as events ---------------------------------------------------------------------

  /** Where the host engine's lanes stand once it has read the flag of an If: in the branch, or
      behind the If in lanes where the branch is empty. */
  function BranchStacks(w: World, ctx: Ctx, bid: nat, k: nat, cid: nat): (stacks: seq<seq<Frame>>)
    requires bid < |w.blocks| && cid < |w.blocks| && Shaped(w.n, w.blocks[bid]) && Shaped(w.n, w.blocks[cid])
    requires k < |w.blocks[bid].lvls| && |ctx.base| == |ctx.widx| == w.n
    requires forall L: nat | L < w.n :: HasLane(w.blocks[cid], L)
    ensures |stacks| == w.n
    ensures forall L | 0 <= L < w.n :: stacks[L] ==
              if Length(w.blocks[cid], L) == 0 then At(w.n, ctx, w.blocks[bid], After(w.n, w.blocks[bid], k))[L]
              else At(w.n, Inner(w.n, ctx, w.blocks[bid], k, 2), w.blocks[cid], w.blocks[cid].at[0])[L]
  {
    seq(w.n, L requires 0 <= L < w.n =>
      if Length(w.blocks[cid], L) == 0 then At(w.n, ctx, w.blocks[bid], After(w.n, w.blocks[bid], k))[L]
      else At(w.n, Inner(w.n, ctx, w.blocks[bid], k, 2), w.blocks[cid], w.blocks[cid].at[0])[L])
  }

  lemma BranchMove(stream: seq<Entry>, base: seq<Frame>, f: Frame, m: Mem)
    requires f.pc < f.end && f.pc < |stream| && stream[f.pc].task == TASK_IF && StackOk(base + [f])
    ensures MoveLane(HostDispatch, stream, base + [f], m) == Event(Branch)
    ensures CanResolve(stream, base + [f], Branch, m) <==>
              (BranchLength(stream[f.pc], m) > 0 ==> Room(HostDispatch, |base| + 1))
    ensures CanResolve(stream, base + [f], Branch, m) ==>
              Resolve(stream, base + [f], Branch, m) ==
                if BranchLength(stream[f.pc], m) == 0 then base + [f.(pc := f.pc + 1)]
                else base + [f, Frame(BranchStart(stream[f.pc], m),
                    BranchStart(stream[f.pc], m) + BranchLength(stream[f.pc], m), f.pc, 2)]
  {
    TopOf(base, f);
    hide BranchStart, BranchLength, Top, Below, Bump;
    if CanResolve(stream, base + [f], Branch, m) && BranchLength(stream[f.pc], m) != 0 {
      var g := Frame(BranchStart(stream[f.pc], m), BranchStart(stream[f.pc], m) + BranchLength(stream[f.pc], m), f.pc,
          2);
      assert base + [f] + [g] == base + [f, g];
    }
  }

  lemma BranchEntry(w: World, bid: nat, k: nat, m: Mem, L: nat)
    requires WorldOk(w) && IsCtrl(w, bid, k) && L < w.n == |w.mc.streams| && InsOf(w, bid, k).op == If
    requires w.blocks[bid].lvls[k].Ctrl?
    ensures Shaped(w.n, w.blocks[bid]) && Chosen(w, bid, k, m) < |w.blocks|
    ensures HasLane(w.blocks[Chosen(w, bid, k, m)], L)
    ensures var b, c := w.blocks[bid], w.blocks[Chosen(w, bid, k, m)];
            && b.at[k][L] < b.at[|b.lvls|][L] && b.at[k][L] < |w.mc.streams[L]| && After(w.n, b, k)[L] == b.at[k][L] + 1
            && var e := w.mc.streams[L][b.at[k][L]];
               e.task == TASK_IF && BranchLength(e, m) == Length(c, L) && BranchStart(e, m) == Start(c, L)
  {
    CtrlLane(w, bid, k, L);
    hide WorldOk;
  }

  /** The same stack, frame by frame. */
  function BranchFrames(ctx: Ctx, b: Block, k: nat, c: Block, L: nat): seq<Frame>
    requires |ctx.base| == |ctx.widx| && L < |ctx.base| && Shaped(|ctx.base|, b) && k < |b.lvls| && HasLane(c, L)
  {
    var f := Frame(b.at[k][L], b.at[|b.lvls|][L], ctx.widx[L], ctx.phase);
    if Length(c, L) == 0 then ctx.base[L] + [f.(pc := f.pc + 1)]
    else ctx.base[L] + [f, Frame(Start(c, L), Start(c, L) + Length(c, L), f.pc, 2)]
  }

  lemma BranchLane(w: World, ctx: Ctx, bid: nat, k: nat, m: Mem, st: State, stacks: seq<seq<Frame>>, L: nat)
    requires WorldOk(w) && IsCtrl(w, bid, k) && CtxOk(w.n, ctx, w.blocks[bid].depth)
    requires L < w.n == |w.mc.streams| == |stacks|
    requires w.mc.kind == HostDispatch && InsOf(w, bid, k).op == If
    requires Shaped(w.n, w.blocks[bid]) && StateOk(w.mc, st) && st.mem == m
    requires st.stacks == At(w.n, ctx, w.blocks[bid], w.blocks[bid].at[k])
    requires Chosen(w, bid, k, m) < |w.blocks| && HasLane(w.blocks[Chosen(w, bid, k, m)], L)
    requires Length(w.blocks[Chosen(w, bid, k, m)], L) > 0 ==> CanNest(w.mc.kind, w.blocks[bid].depth)
    requires stacks[L] == BranchFrames(ctx, w.blocks[bid], k, w.blocks[Chosen(w, bid, k, m)], L)
    ensures LaneAtEvent(w.mc, st, Branch, L) && LaneResolvesTo(w.mc, st, Branch, m, stacks, L)
  {
    hide WorldOk, MoveLane, Resolve, CanResolve, StackOk, BranchLength, BranchStart, Chosen, InsOf;
    BranchEntry(w, bid, k, m, L);
    var b := w.blocks[bid];
    LaneStack(w.n, ctx, b, b.at[k], L);
    BranchMove(w.mc.streams[L], ctx.base[L], Frame(b.at[k][L], b.at[|b.lvls|][L], ctx.widx[L], ctx.phase), m);
  }

  /** The stack of a lane that enters the branch, frame by frame. */
  lemma BranchTarget(w: World, ctx: Ctx, bid: nat, k: nat, cid: nat, L: nat)
    requires bid < |w.blocks| && cid < |w.blocks| && Shaped(w.n, w.blocks[bid]) && Shaped(w.n, w.blocks[cid])
    requires k < |w.blocks[bid].lvls| && |ctx.base| == |ctx.widx| == w.n && L < w.n
    requires forall R: nat | R < w.n :: HasLane(w.blocks[cid], R)
    requires After(w.n, w.blocks[bid], k)[L] == w.blocks[bid].at[k][L] + 1
    ensures BranchStacks(w, ctx, bid, k, cid)[L] == BranchFrames(ctx, w.blocks[bid], k, w.blocks[cid], L)
  {
    var b, c := w.blocks[bid], w.blocks[cid];
    var f := Frame(b.at[k][L], b.at[|b.lvls|][L], ctx.widx[L], ctx.phase);
    var g := Frame(Start(c, L), Start(c, L) + Length(c, L), f.pc, 2);
    assert ctx.base[L] + [f] + [g] == ctx.base[L] + [f, g];
  }

  lemma BranchOne(w: World, ctx: Ctx, bid: nat, k: nat, m: Mem, st: State, cid: nat, L: nat)
    requires WorldOk(w) && IsCtrl(w, bid, k) && CtxOk(w.n, ctx, w.blocks[bid].depth) && L < w.n == |w.mc.streams|
    requires w.mc.kind == HostDispatch && InsOf(w, bid, k).op == If
    requires Shaped(w.n, w.blocks[bid]) && StateOk(w.mc, st) && st.mem == m
    requires st.stacks == At(w.n, ctx, w.blocks[bid], w.blocks[bid].at[k])
    requires cid == Chosen(w, bid, k, m) && cid < |w.blocks| && Shaped(w.n, w.blocks[cid])
    requires forall R: nat | R < w.n :: HasLane(w.blocks[cid], R)
    requires Length(w.blocks[cid], L) > 0 ==> CanNest(w.mc.kind, w.blocks[bid].depth)
    ensures LaneAtEvent(w.mc, st, Branch, L)
    ensures LaneResolvesTo(w.mc, st, Branch, m, BranchStacks(w, ctx, bid, k, cid), L)
  {
    hide WorldOk, StateOk, LaneAtEvent, LaneResolvesTo, Chosen, CanNest, At, HasLane, BranchStacks, BranchFrames, InsOf;
    BranchEntry(w, bid, k, m, L);
    BranchTarget(w, ctx, bid, k, cid, L);
    BranchLane(w, ctx, bid, k, m, st, BranchStacks(w, ctx, bid, k, cid), L);
  }

  lemma NothingLaunched(n: nat, st: State)
    ensures Launched(st, Nothing(n)) == st.launched
  {
  }

  /** Nothing of the block stands in any lane. */
  predicate Blank(w: World, cid: nat) {
    cid < |w.blocks| && forall L: nat | L < w.n :: HasLane(w.blocks[cid], L) && Length(w.blocks[cid], L) == 0
  }

  /** The host engine reads the flag: one round without a launch. */
  lemma BranchRound(w: World, ctx: Ctx, bid: nat, k: nat, m: Mem, d: nat)
    requires WorldOk(w) && IsCtrl(w, bid, k) && CtxOk(w.n, ctx, w.blocks[bid].depth)
    requires InsOf(w, bid, k).op == If && w.mc.kind == HostDispatch
    requires CanNest(w.mc.kind, w.blocks[bid].depth) || Blank(w, Chosen(w, bid, k, m))
    ensures Shaped(w.n, w.blocks[bid]) && PickOk(w.mc)
    ensures var cid := Chosen(w, bid, k, m);
            && cid < |w.blocks| && Shaped(w.n, w.blocks[cid]) && (forall L: nat | L < w.n :: HasLane(w.blocks[cid], L))
            && Leads(w.mc, AtLevel(w, ctx, bid, k, m, d), State(BranchStacks(w, ctx, bid, k, cid), Nothing(w.n), m, d),
              1)
  {
    hide WorldOk, InsOf, HasLane, Leads;
    RegionSetting(w, ctx, bid, k);
    var b, cid := w.blocks[bid], Chosen(w, bid, k, m);
    var c := w.blocks[cid];
    assert IsChild(w, bid, c.range, cid) by {
      CtrlFacts(w, bid, k);
    }
    ChildShape(w, bid, c.range, cid);
    forall L: nat | L < w.n
      ensures HasLane(c, L)
    {
      CtrlLane(w, bid, k, L);
    }
    var st, stacks := AtLevel(w, ctx, bid, k, m, d), BranchStacks(w, ctx, bid, k, cid);
    AtOk(w, ctx, b, b.at[k], Nothing(w.n), m, d);
    NothingSettles(w.mc, st.stacks, w.n, m, d);
    NothingLaunched(w.n, st);
    var next := State(stacks, Nothing(w.n), m, d);
    assert StateOk(w.mc, next) by {
      AtOk(w, ctx, b, After(w.n, b, k), Nothing(w.n), m, d);
      AtOk(w, Inner(w.n, ctx, b, k, 2), c, c.at[0], Nothing(w.n), m, d);
    }
    forall L | 0 <= L < |w.mc.streams|
      ensures LaneAtEvent(w.mc, st, Branch, L) && LaneResolvesTo(w.mc, st, Branch, m, stacks, L)
    {
      BranchOne(w, ctx, bid, k, m, st, cid, L);
    }
    assert AtEvent(w.mc, st, Branch) && ResolvesTo(w.mc, st, Branch, m, stacks);
    assert next == State(stacks, Nothing(|stacks|), m, Launched(st, st.pend));
    hide AtEvent, ResolvesTo, At, BranchStacks, SomeEntry;
    EventStep(w.mc, st, Branch, m, stacks);
  }

  lemma ChildShape(w: World, bid: nat, range: (nat, nat), cid: nat)
    requires bid < |w.blocks| && IsChild(w, bid, range, cid)
    ensures cid < |w.blocks| && Shaped(w.n, w.blocks[cid]) && w.blocks[cid].depth == w.blocks[bid].depth + 1
  {
  }

  /** From there a light branch is collected on the way to the next barrier. */
  lemma BranchSlides(w: World, ctx: Ctx, bid: nat, k: nat, cid: nat, m: Mem, d: nat)
    requires WorldOk(w) && IsCtrl(w, bid, k) && CtxOk(w.n, ctx, w.blocks[bid].depth) && InsOf(w, bid, k).op == If
    requires cid < |w.blocks| && Light(w.blocks[cid]) && Shaped(w.n, w.blocks[bid]) && Shaped(w.n, w.blocks[cid])
    requires w.blocks[cid].depth == w.blocks[bid].depth + 1 && forall L: nat | L < w.n :: HasLane(w.blocks[cid], L)
    ensures PickOk(w.mc)
    ensures Leads(w.mc, State(BranchStacks(w, ctx, bid, k, cid), Nothing(w.n), m, d),
                  State(At(w.n, ctx, w.blocks[bid], After(w.n, w.blocks[bid], k)), LightPend(w, w.blocks[cid]), m, d),
                      0)
  {
    hide WorldOk, InsOf, Light, HasLane, PickOk, Leads, BranchStacks, Nothing, At, After, LightPend;
    var b, c := w.blocks[bid], w.blocks[cid];
    RegionSetting(w, ctx, bid, k);
    var from, next := State(BranchStacks(w, ctx, bid, k, cid), Nothing(w.n), m, d),
        State(At(w.n, ctx, b, After(w.n, b, k)), LightPend(w, c), m, d);
    AtOk(w, ctx, b, After(w.n, b, k), LightPend(w, c), m, d);
    AtOk(w, Inner(w.n, ctx, b, k, 2), c, c.at[0], Nothing(w.n), m, d);
    hide WorldOk, IsChild, WalkLane, LightPend, Light;
    forall L | 0 <= L < |w.mc.streams|
      ensures LaneSlides(w.mc, from, next, L)
    {
      assert [] + LightPend(w, c)[L] == LightPend(w, c)[L];
      if Length(c, L) == 0 {
        LightEmpty(w, cid, L);
        WalkNothing(w.mc.kind, w.mc.streams[L], next.stacks[L], m);
      } else {
        LightInside(w, ctx, bid, k, cid, m, L);
      }
      assert WalksVia(w.mc, from, next, L, LightPend(w, c)[L]);
    }
    Slide(w.mc, from, next);
  }

  lemma WalkNothing(kind: Walker, stream: seq<Entry>, stack: seq<Frame>, m: Mem)
    requires StackOk(stack)
    ensures EmitAll([], WalkLane(kind, stream, stack, m)) == WalkLane(kind, stream, stack, m)
  {
    hide WalkLane;
    var walk := WalkLane(kind, stream, stack, m);
    if walk.Stopped? {
      assert [] + walk.out == walk.out;
    }
  }

  /** The end of a heavy branch pops back to its parent. */
  lemma PopsBranch(w: World, ctx: Ctx, bid: nat, k: nat, cid: nat, st: State)
    requires WorldOk(w) && IsCtrl(w, bid, k) && CtxOk(w.n, ctx, w.blocks[bid].depth) && InsOf(w, bid, k).op == If
    requires cid < |w.blocks| && Shaped(w.n, w.blocks[cid]) && w.blocks[cid].depth == w.blocks[bid].depth + 1
    requires Shaped(w.n, w.blocks[bid]) && StateOk(w.mc, st) && |st.pend| == w.n
    requires st.stacks
        == At(w.n, Inner(w.n, ctx, w.blocks[bid], k, 2), w.blocks[cid], w.blocks[cid].at[|w.blocks[cid].lvls|])
    ensures PickOk(w.mc)
    ensures Leads(w.mc, st,
        State(At(w.n, ctx, w.blocks[bid], After(w.n, w.blocks[bid], k)), st.pend, st.mem, st.launched), 0)
  {
    var b, c := w.blocks[bid], w.blocks[cid];
    RegionSetting(w, ctx, bid, k);
    var next := State(At(w.n, ctx, b, After(w.n, b, k)), st.pend, st.mem, st.launched);
    AtOk(w, ctx, b, After(w.n, b, k), st.pend, st.mem, st.launched);
    hide WorldOk, IsChild, MoveLane;
    forall L | 0 <= L < |w.mc.streams|
      ensures MoveLane(w.mc.kind, w.mc.streams[L], st.stacks[L], st.mem) == Go(next.stacks[L], [])
    {
      EndOfBranch(w, ctx, bid, k, c, st.mem, L);
    }
    MovesSlide(w.mc, st, next);
    Slide(w.mc, st, next);
  }

  lemma SettledMoves(mc: Machine, st: State, next: State, m: Mem)
    requires PickOk(mc) && Settled(mc, st, m) && next.pend == st.pend && next.mem == st.mem
    ensures Settled(mc, next, m)
  {
  }

  // ----- loop events as rounds --------------------------------------------------------------------

  lemma ForRound(w: World, ctx: Ctx, bid: nat, k: nat, phase: int, st: State, m: Mem)
    requires WorldOk(w) && IsCtrl(w, bid, k) && CtxOk(w.n, ctx, w.blocks[bid].depth)
    requires InsOf(w, bid, k).op == For && StateOk(w.mc, st) && Shaped(w.n, w.blocks[bid])
    requires JobOf(w, bid, k).second < |w.blocks| && Shaped(w.n, w.blocks[JobOf(w, bid, k).second])
    requires var b, c := w.blocks[bid], w.blocks[JobOf(w, bid, k).second];
             st.stacks == At(w.n, Inner(w.n, ctx, b, k, phase), c, c.at[|c.lvls|])
    requires PickOk(w.mc) && Settled(w.mc, st, m)
    ensures Leads(w.mc, st, State(ForStacks(w, ctx, bid, k, phase), Nothing(w.n), m, Launched(st, st.pend)), 1)
  {
    RegionSetting(w, ctx, bid, k);
    var b, c := w.blocks[bid], w.blocks[JobOf(w, bid, k).second];
    var stacks := ForStacks(w, ctx, bid, k, phase);
    if phase > 1 {
      AtOk(w, Inner(w.n, ctx, b, k, phase - 1), c, c.at[0], Nothing(w.n), m, Launched(st, st.pend));
    } else {
      AtOk(w, ctx, b, After(w.n, b, k), Nothing(w.n), m, Launched(st, st.pend));
    }
    hide WorldOk, Settled, IsChild, Resolve, MoveLane, CanResolve, SomeEntry;
    assert StateOk(w.mc, State(stacks, Nothing(w.n), m, Launched(st, st.pend)));
    forall L | 0 <= L < |w.mc.streams|
      ensures LaneAtEvent(w.mc, st, ForBody, L) && LaneResolvesTo(w.mc, st, ForBody, m, stacks, L)
    {
      ForLane(w, ctx, bid, k, phase, st, m, L);
    }
    EventStep(w.mc, st, ForBody, m, stacks);
  }

  lemma TestRound(w: World, ctx: Ctx, bid: nat, k: nat, st: State, m: Mem)
    requires WorldOk(w) && IsCtrl(w, bid, k) && CtxOk(w.n, ctx, w.blocks[bid].depth)
    requires InsOf(w, bid, k).op == While && StateOk(w.mc, st) && Shaped(w.n, w.blocks[bid])
    requires JobOf(w, bid, k).first < |w.blocks| && Shaped(w.n, w.blocks[JobOf(w, bid, k).first])
    requires JobOf(w, bid, k).second < |w.blocks| && Shaped(w.n, w.blocks[JobOf(w, bid, k).second])
    requires var b, c := w.blocks[bid], w.blocks[JobOf(w, bid, k).first];
             st.stacks == At(w.n, Inner(w.n, ctx, b, k, 0), c, c.at[|c.lvls|])
    requires PickOk(w.mc) && Settled(w.mc, st, m)
    ensures Leads(w.mc, st, State(TestStacks(w, ctx, bid, k, m), Nothing(w.n), m, Launched(st, st.pend)), 1)
  {
    RegionSetting(w, ctx, bid, k);
    var b, d := w.blocks[bid], w.blocks[JobOf(w, bid, k).second];
    var stacks := TestStacks(w, ctx, bid, k, m);
    AtOk(w, Inner(w.n, ctx, b, k, 1), d, d.at[0], Nothing(w.n), m, Launched(st, st.pend));
    AtOk(w, ctx, b, After(w.n, b, k), Nothing(w.n), m, Launched(st, st.pend));
    hide WorldOk, Settled, IsChild, Resolve, MoveLane, CanResolve, SomeEntry;
    assert StateOk(w.mc, State(stacks, Nothing(w.n), m, Launched(st, st.pend)));
    forall L | 0 <= L < |w.mc.streams|
      ensures LaneAtEvent(w.mc, st, WhileCond, L) && LaneResolvesTo(w.mc, st, WhileCond, m, stacks, L)
    {
      TestLane(w, ctx, bid, k, st, m, L);
    }
    EventStep(w.mc, st, WhileCond, m, stacks);
  }

  lemma AgainRound(w: World, ctx: Ctx, bid: nat, k: nat, st: State, m: Mem)
    requires WorldOk(w) && IsCtrl(w, bid, k) && CtxOk(w.n, ctx, w.blocks[bid].depth)
    requires InsOf(w, bid, k).op == While && StateOk(w.mc, st) && Shaped(w.n, w.blocks[bid])
    requires JobOf(w, bid, k).first < |w.blocks| && Shaped(w.n, w.blocks[JobOf(w, bid, k).first])
    requires JobOf(w, bid, k).second < |w.blocks| && Shaped(w.n, w.blocks[JobOf(w, bid, k).second])
    requires var b, d := w.blocks[bid], w.blocks[JobOf(w, bid, k).second];
             st.stacks == At(w.n, Inner(w.n, ctx, b, k, 1), d, d.at[|d.lvls|])
    requires PickOk(w.mc) && Settled(w.mc, st, m)
    ensures Leads(w.mc, st,
        AtLevel(w, Inner(w.n, ctx, w.blocks[bid], k, 0), JobOf(w, bid, k).first, 0, m, Launched(st, st.pend)), 1)
  {
    RegionSetting(w, ctx, bid, k);
    var b, c := w.blocks[bid], w.blocks[JobOf(w, bid, k).first];
    var stacks := At(w.n, Inner(w.n, ctx, b, k, 0), c, c.at[0]);
    AtOk(w, Inner(w.n, ctx, b, k, 0), c, c.at[0], Nothing(w.n), m, Launched(st, st.pend));
    hide WorldOk, Settled, IsChild, Resolve, MoveLane, CanResolve, SomeEntry;
    forall L | 0 <= L < |w.mc.streams|
      ensures LaneAtEvent(w.mc, st, WhileBody, L) && LaneResolvesTo(w.mc, st, WhileBody, m, stacks, L)
    {
      AgainLane(w, ctx, bid, k, st, m, L);
    }
    EventStep(w.mc, st, WhileBody, m, stacks);
  }
}
