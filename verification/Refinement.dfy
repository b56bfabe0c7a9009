/** The refinement: from the start of a block, the machine performs exactly what the recursive
    interpreter performs on the block's instruction range, and stops where the interpreter does. */
module Refinement {
  import opened Isa
  import opened Streams
  import opened OnePhase
  import opened Reference
  import opened PhaseCount
  import opened Layout
  import opened Scheduler
  import opened Engine
  import opened RoundLaws
  import opened Simulation
  import opened FrameWalk
  import opened HostLimits

  /** How much has been launched at the end, and where the lanes stand unless the run was cut. */
  ghost predicate Concludes(w: World, ctx: Ctx, bid: nat, row: seq<nat>, o: Outcome, total: nat, end: State)
    requires bid < |w.blocks| && Shaped(w.n, w.blocks[bid]) && |ctx.base| == |ctx.widx| == |row| == w.n
  {
    && (o.Done? ==> EndsAt(w, ctx, bid, row, total, end))
    && (o.Truncated? ==> end.launched == total)
  }

  /** From level `k` of a block to its end, `d` batches having been launched before. */
  lemma {:induction false} SimBlock(w: World, ctx: Ctx, bid: nat, k: nat, fuel: nat, m: Mem, d: nat)
    returns (r: nat, end: State)
    requires WorldOk(w) && bid < |w.blocks| && CtxOk(w.n, ctx, w.blocks[bid].depth)
    requires RangeSafe(w.p, w.blocks[bid].range)
    requires Shaped(w.n, w.blocks[bid]) && k <= |w.blocks[bid].lvls|
    ensures PickOk(w.mc) && w.blocks[bid].depth <= MAX_DEPTH
    ensures Simulates(w.mc, AtLevel(w, ctx, bid, k, m, d), Meaning(w, bid, k, fuel, m), fuel, r, end)
    ensures Concludes(w, ctx, bid, w.blocks[bid].at[|w.blocks[bid].lvls|], Meaning(w, bid, k, fuel, m),
                      d + BlockRun(w, bid, k, fuel, m), end)
    decreases MAX_DEPTH + 1 - w.blocks[bid].depth, 1, |w.blocks[bid].lvls| - k, 1
  {
    hide WorldOk;
    var b := w.blocks[bid];
    var start := AtLevel(w, ctx, bid, k, m, d);
    Basics(w, bid);
    AtOk(w, ctx, b, b.at[k], Nothing(w.n), m, d);
    if k == |b.lvls| {
      r, end := 0, start;
      assert b.lvls[k..] == [];
      NothingLaunched(w.n, start);
      NothingSettles(w.mc, start.stacks, w.n, m, d);
      assert Leads(w.mc, start, start, 0);
    } else {
      r, end := SimFrom(w, ctx, bid, k, fuel, m, d);
    }
  }

  lemma {:induction false} SimFrom(w: World, ctx: Ctx, bid: nat, k: nat, fuel: nat, m: Mem, d: nat)
    returns (r: nat, end: State)
    requires WorldOk(w) && bid < |w.blocks| && CtxOk(w.n, ctx, w.blocks[bid].depth)
    requires RangeSafe(w.p, w.blocks[bid].range)
    requires Shaped(w.n, w.blocks[bid]) && k < |w.blocks[bid].lvls|
    ensures PickOk(w.mc) && w.blocks[bid].depth <= MAX_DEPTH
    ensures Simulates(w.mc, AtLevel(w, ctx, bid, k, m, d), Meaning(w, bid, k, fuel, m), fuel, r, end)
    ensures Concludes(w, ctx, bid, w.blocks[bid].at[|w.blocks[bid].lvls|], Meaning(w, bid, k, fuel, m),
                      d + BlockRun(w, bid, k, fuel, m), end)
    decreases MAX_DEPTH + 1 - w.blocks[bid].depth, 1, |w.blocks[bid].lvls| - k, 0
  {
    hide WorldOk, EvalList, Leads, Settled, RangeSafe, LevelsRun, LevelRun, Launched;
    Basics(w, bid);
    var b := w.blocks[bid];
    var o;
    r, end, o := SimLevel(w, ctx, bid, k, fuel, m, d);
    FirstLevel(w, bid, k, fuel, m);
    FirstRun(w, bid, k, fuel, m);
    if o.Done? {
      if k + 1 < |b.lvls| {
        r, end := SimRest(w, ctx, bid, k, fuel, m, o.mem, d, r, end);
      } else {
        assert After(w.n, b, k) == b.at[k + 1];
        NothingLeft(w, bid, fuel, o.mem);
      }
    }
  }

  /** The barrier after level `k` and everything behind it. */
  lemma {:induction false} SimRest(w: World, ctx: Ctx, bid: nat, k: nat, fuel: nat, m0: Mem, m: Mem, d: nat, r0: nat,
                                   mid: State)
    returns (r: nat, end: State)
    requires WorldOk(w) && bid < |w.blocks| && CtxOk(w.n, ctx, w.blocks[bid].depth)
    requires RangeSafe(w.p, w.blocks[bid].range)
    requires Shaped(w.n, w.blocks[bid]) && k + 1 < |w.blocks[bid].lvls| && PickOk(w.mc)
    requires Leads(w.mc, AtLevel(w, ctx, bid, k, m0, d), mid, r0) && Settled(w.mc, mid, m)
    requires mid.stacks == At(w.n, ctx, w.blocks[bid], After(w.n, w.blocks[bid], k))
    ensures w.blocks[bid].depth <= MAX_DEPTH
    ensures Simulates(w.mc, AtLevel(w, ctx, bid, k, m0, d), Meaning(w, bid, k + 1, fuel, m), fuel, r, end)
    ensures Concludes(w, ctx, bid, w.blocks[bid].at[|w.blocks[bid].lvls|], Meaning(w, bid, k + 1, fuel, m),
                      Launched(mid, mid.pend) + BlockRun(w, bid, k + 1, fuel, m), end)
    decreases MAX_DEPTH + 1 - w.blocks[bid].depth, 1, |w.blocks[bid].lvls| - (k + 1), 2
  {
    hide WorldOk, EvalList, Leads, Settled, RangeSafe, LevelsRun, Launched;
    Basics(w, bid);
    var d2 := Launched(mid, mid.pend);
    LeadsOk(w.mc, AtLevel(w, ctx, bid, k, m0, d), mid, r0);
    Closes(w, ctx, bid, k, mid, m);
    var r2, end2 := SimBlock(w, ctx, bid, k + 1, fuel, m, d2);
    SimChain(w.mc, AtLevel(w, ctx, bid, k, m0, d), mid, AtLevel(w, ctx, bid, k + 1, m, d2), end2,
        Meaning(w, bid, k + 1, fuel, m), fuel, fuel, r0, r2);
    r, end := r0 + 1 + r2, end2;
  }

  /** A part, the event that ends it, and the rest. */
  lemma SimChain(mc: Machine, a: State, b: State, c: State, d: State, o: Outcome, bound: nat, less: nat, j: nat, k: nat)
    requires PickOk(mc) && Leads(mc, a, b, j) && Leads(mc, b, c, 1) && Simulates(mc, c, o, bound, k, d)
    requires less <= j + 1 + bound
    ensures Simulates(mc, a, o, less, j + 1 + k, d)
  {
    hide Leads, Simulates;
    LeadsTrans(mc, a, b, c, j, 1);
    SimAfter(mc, a, c, d, o, bound, j + 1, k);
    SimLess(mc, a, d, o, j + 1 + bound, less, j + 1 + k);
  }

  lemma SimEnds(mc: Machine, a: State, b: State, c: State, m: Mem, bound: nat, j: nat)
    requires PickOk(mc) && Leads(mc, a, b, j) && Leads(mc, b, c, 1) && Settled(mc, c, m)
    ensures Simulates(mc, a, Done(m), bound, j + 1, c)
  {
    hide Leads;
    LeadsTrans(mc, a, b, c, j, 1);
  }

  lemma LeadsOk(mc: Machine, a: State, b: State, k: nat)
    requires PickOk(mc) && Leads(mc, a, b, k)
    ensures StateOk(mc, a) && StateOk(mc, b)
  {
  }

  lemma {:induction false} SimLevel(w: World, ctx: Ctx, bid: nat, k: nat, fuel: nat, m: Mem, d: nat)
    returns (r: nat, end: State, o: Outcome)
    requires WorldOk(w) && bid < |w.blocks| && CtxOk(w.n, ctx, w.blocks[bid].depth)
    requires RangeSafe(w.p, w.blocks[bid].range)
    requires Shaped(w.n, w.blocks[bid]) && k < |w.blocks[bid].lvls|
    ensures PickOk(w.mc) && w.blocks[bid].depth <= MAX_DEPTH
    ensures o == EvalList(w.p, w.dev, FirstInstrs(w.blocks[bid].lvls[k]), w.blocks[bid].depth, fuel, m)
    ensures Simulates(w.mc, AtLevel(w, ctx, bid, k, m, d), o, fuel, r, end)
    ensures Concludes(w, ctx, bid, After(w.n, w.blocks[bid], k), o, d + LvlRun(w, bid, k, fuel, m), end)
    decreases MAX_DEPTH + 1 - w.blocks[bid].depth, 0, 3
  {
    hide WorldOk, Leads, Settled, EvalList, Launched, LevelRun;
    Basics(w, bid);
    var b := w.blocks[bid];
    match b.lvls[k] {
      case Work(part, _) =>
        end := SimWork(w, ctx, bid, k, fuel, m, d);
        r, o := 0, EvalList(w.p, w.dev, part, b.depth, fuel, m);
      case Ctrl(i, _) =>
        RegionSetting(w, ctx, bid, k);
        if InsOf(w, bid, k).op == If {
          r, end := SimIf(w, ctx, bid, k, fuel, m, d);
        } else if InsOf(w, bid, k).op == For {
          r, end := SimFor(w, ctx, bid, k, fuel, m, d);
        } else {
          r, end := SimWhile(w, ctx, bid, k, fuel, m, d);
        }
        OneInstr(w, i, b.depth, fuel, m);
        o := RegionMeaning(w, bid, k, fuel, m);
    }
  }

  /** A light branch runs as one more batch of its parent's round. */
  lemma SimLight(w: World, ctx: Ctx, bid: nat, k: nat, fuel: nat, m: Mem, d: nat) returns (r: nat, end: State)
    requires WorldOk(w) && IsCtrl(w, bid, k) && CtxOk(w.n, ctx, w.blocks[bid].depth)
    requires CanNest(w.mc.kind, w.blocks[bid].depth)
    requires InsOf(w, bid, k).op == If && Chosen(w, bid, k, m) < |w.blocks| && Light(w.blocks[Chosen(w, bid, k, m)])
    ensures Shaped(w.n, w.blocks[bid]) && PickOk(w.mc) && w.blocks[bid].depth <= MAX_DEPTH
    ensures Simulates(w.mc, AtLevel(w, ctx, bid, k, m, d), RegionMeaning(w, bid, k, fuel, m), fuel, r, end)
    ensures Concludes(w, ctx, bid, After(w.n, w.blocks[bid], k), RegionMeaning(w, bid, k, fuel, m),
                      d + LvlRun(w, bid, k, fuel, m), end)
  {
    hide WorldOk, CanNest, InsOf, Light, PickOk, AtLevel, RegionMeaning, After, LvlRun, SecondRange, Inner, At,
      LightPend, Settled, Launched, Leads, Get, HaltsAt, RunsFor, CrashesAt;
    var b, cid := w.blocks[bid], Chosen(w, bid, k, m);
    RegionSetting(w, ctx, bid, k);
    LightMeans(w, ctx, bid, k, fuel, m, d);
    end := State(At(w.n, ctx, b, After(w.n, b, k)), LightPend(w, w.blocks[cid]), m, d);
    var start := AtLevel(w, ctx, bid, k, m, d);
    if w.mc.kind == Simulator {
      r := 0;
      LightSlides(w, ctx, bid, k, m, d);
    } else {
      r := 1;
      BranchRound(w, ctx, bid, k, m, d);
      BranchSlides(w, ctx, bid, k, cid, m, d);
      hide WorldOk, Leads, Settled, Light, LightPend;
      LeadsTrans(w.mc, start, State(BranchStacks(w, ctx, bid, k, cid), Nothing(w.n), m, d), end, 1, 0);
    }
  }

  /** Into a heavy branch: at once, or by an event. */
  lemma EntersBranch(w: World, ctx: Ctx, bid: nat, k: nat, m: Mem, d: nat) returns (j: nat)
    requires WorldOk(w) && IsCtrl(w, bid, k) && CtxOk(w.n, ctx, w.blocks[bid].depth)
    requires CanNest(w.mc.kind, w.blocks[bid].depth)
    requires InsOf(w, bid, k).op == If && Chosen(w, bid, k, m) < |w.blocks| && !Light(w.blocks[Chosen(w, bid, k, m)])
    ensures Shaped(w.n, w.blocks[bid]) && PickOk(w.mc)
    ensures var cid := Chosen(w, bid, k, m);
            && Shaped(w.n, w.blocks[cid])
            && Leads(w.mc, AtLevel(w, ctx, bid, k, m, d),
              AtLevel(w, Inner(w.n, ctx, w.blocks[bid], k, 2), cid, 0, m, d), j)
  {
    hide WorldOk, CanNest, InsOf, Leads, Inner, JobOf, IsChild;
    var cid := Chosen(w, bid, k, m);
    RegionSetting(w, ctx, bid, k);
    forall L: nat | L < w.n
      ensures HasLane(w.blocks[cid], L) && Length(w.blocks[cid], L) > 0
    {
      HeavyLength(w, cid, L);
    }
    if w.mc.kind == Simulator {
      j := 0;
      EntersBlock(w, ctx, bid, k, m, d);
    } else {
      j := 1;
      BranchRound(w, ctx, bid, k, m, d);
      var inner := Inner(w.n, ctx, w.blocks[bid], k, 2);
      assert BranchStacks(w, ctx, bid, k, cid) == At(w.n, inner, w.blocks[cid], w.blocks[cid].at[0]);
    }
  }

  lemma {:induction false} SimIf(w: World, ctx: Ctx, bid: nat, k: nat, fuel: nat, m: Mem, d: nat)
    returns (r: nat, end: State)
    requires WorldOk(w) && IsCtrl(w, bid, k) && CtxOk(w.n, ctx, w.blocks[bid].depth) && Shaped(w.n, w.blocks[bid])
    requires InsOf(w, bid, k).op == If
    ensures PickOk(w.mc) && w.blocks[bid].depth <= MAX_DEPTH
    ensures Simulates(w.mc, AtLevel(w, ctx, bid, k, m, d), RegionMeaning(w, bid, k, fuel, m), fuel, r, end)
    ensures Concludes(w, ctx, bid, After(w.n, w.blocks[bid], k), RegionMeaning(w, bid, k, fuel, m),
                      d + LvlRun(w, bid, k, fuel, m), end)
    decreases MAX_DEPTH + 1 - w.blocks[bid].depth, 0, 2
  {
    hide Simulates, AtLevel, RegionMeaning, Concludes, After, LvlRun, JobOf, IsChild, FirstRange, SecondRange, Inner,
      Light, Leads, Meaning, BlockRun;
    var b, cid := w.blocks[bid], Chosen(w, bid, k, m);
    RegionSetting(w, ctx, bid, k);
    Basics(w, bid);
    if Cramped(w.dev, b.depth) {
      r := 1;
      end := SimCramped(w, ctx, bid, k, fuel, m, d);
    } else if Light(w.blocks[cid]) {
      r, end := SimLight(w, ctx, bid, k, fuel, m, d);
    } else {
      var j := EntersBranch(w, ctx, bid, k, m, d);
      BranchMeans(w, bid, k, fuel, m);
      hide WorldOk, Meaning, RegionMeaning, BlockRun, LvlRun, Leads, Settled, Light, Launched;
      r, end := SimBlock(w, Inner(w.n, ctx, b, k, 2), cid, 0, fuel, m, d);
      r, end := SimHeavy(w, ctx, bid, k, fuel, m, d, j, r, end);
    }
  }

  /** An If that the host engine has no room for. */
  lemma SimCramped(w: World, ctx: Ctx, bid: nat, k: nat, fuel: nat, m: Mem, d: nat) returns (end: State)
    requires WorldOk(w) && IsCtrl(w, bid, k) && CtxOk(w.n, ctx, w.blocks[bid].depth) && Shaped(w.n, w.blocks[bid])
    requires InsOf(w, bid, k).op == If && Cramped(w.dev, w.blocks[bid].depth)
    ensures PickOk(w.mc) && w.blocks[bid].depth <= MAX_DEPTH
    ensures Simulates(w.mc, AtLevel(w, ctx, bid, k, m, d), RegionMeaning(w, bid, k, fuel, m), fuel, 1, end)
    ensures Concludes(w, ctx, bid, After(w.n, w.blocks[bid], k), RegionMeaning(w, bid, k, fuel, m),
                      d + LvlRun(w, bid, k, fuel, m), end)
  {
    hide WorldOk, Leads, Settled, CrashesAt, Bare, Blank, RangeSafe, EndsAt, AtLevel;
    var cid := Chosen(w, bid, k, m);
    RegionSetting(w, ctx, bid, k);
    Basics(w, bid);
    BlankMeans(w, cid);
    if Blank(w, cid) {
      end := HostSkipsBranch(w, ctx, bid, k, m, d);
    } else {
      HostReportsBranch(w, ctx, bid, k, m, d);
      end := AtLevel(w, ctx, bid, k, m, d);
    }
  }

  /** Into a heavy branch, through it, and back behind the If. */
  lemma SimHeavy(w: World, ctx: Ctx, bid: nat, k: nat, fuel: nat, m: Mem, d: nat, j: nat, r0: nat, mid: State)
    returns (r: nat, end: State)
    requires WorldOk(w) && IsCtrl(w, bid, k) && CtxOk(w.n, ctx, w.blocks[bid].depth) && Shaped(w.n, w.blocks[bid])
    requires PickOk(w.mc)
    requires InsOf(w, bid, k).op == If && Chosen(w, bid, k, m) < |w.blocks|
    requires var b, cid := w.blocks[bid], Chosen(w, bid, k, m);
             var inner := Inner(w.n, ctx, b, k, 2);
             && w.blocks[cid].depth == b.depth + 1 <= MAX_DEPTH && Shaped(w.n, w.blocks[cid])
             && Leads(w.mc, AtLevel(w, ctx, bid, k, m, d), AtLevel(w, inner, cid, 0, m, d), j)
             && Simulates(w.mc, AtLevel(w, inner, cid, 0, m, d), Meaning(w, cid, 0, fuel, m), fuel, r0, mid)
             && Concludes(w, inner, cid, w.blocks[cid].at[|w.blocks[cid].lvls|], Meaning(w, cid, 0, fuel, m),
                          d + BlockRun(w, cid, 0, fuel, m), mid)
    ensures var o := Meaning(w, Chosen(w, bid, k, m), 0, fuel, m);
            && Simulates(w.mc, AtLevel(w, ctx, bid, k, m, d), o, fuel, r, end)
            && Concludes(w, ctx, bid, After(w.n, w.blocks[bid], k), o,
                         d + BlockRun(w, Chosen(w, bid, k, m), 0, fuel, m), end)
  {
    hide WorldOk, Meaning, BlockRun, Leads, Settled, SomeEntry;
    var b, cid := w.blocks[bid], Chosen(w, bid, k, m);
    var start, o := AtLevel(w, ctx, bid, k, m, d), Meaning(w, cid, 0, fuel, m);
    SimAfter(w.mc, start, AtLevel(w, Inner(w.n, ctx, b, k, 2), cid, 0, m, d), mid, o, fuel, j, r0);
    SimLess(w.mc, start, mid, o, j + fuel, fuel, j + r0);
    r, end := j + r0, mid;
    if o.Done? {
      LeadsOk(w.mc, start, mid, r);
      PopsBranch(w, ctx, bid, k, cid, mid);
      end := State(At(w.n, ctx, b, After(w.n, b, k)), mid.pend, mid.mem, mid.launched);
      LeadsTrans(w.mc, start, mid, end, r, 0);
      SettledMoves(w.mc, mid, end, o.mem);
    }
  }

  lemma {:induction false} SimFor(w: World, ctx: Ctx, bid: nat, k: nat, fuel: nat, m: Mem, d: nat)
    returns (r: nat, end: State)
    requires WorldOk(w) && IsCtrl(w, bid, k) && CtxOk(w.n, ctx, w.blocks[bid].depth) && Shaped(w.n, w.blocks[bid])
    requires InsOf(w, bid, k).op == For
    ensures PickOk(w.mc) && w.blocks[bid].depth <= MAX_DEPTH
    ensures Simulates(w.mc, AtLevel(w, ctx, bid, k, m, d), RegionMeaning(w, bid, k, fuel, m), fuel, r, end)
    ensures Concludes(w, ctx, bid, After(w.n, w.blocks[bid], k), RegionMeaning(w, bid, k, fuel, m),
                      d + LvlRun(w, bid, k, fuel, m), end)
    decreases MAX_DEPTH + 1 - w.blocks[bid].depth, 0, 2
  {
    hide WorldOk, RangeSafe, EvalFor, TripsRun, EndsAt, Simulates, Leads, Settled;
    var b, ins := w.blocks[bid], InsOf(w, bid, k);
    RegionSetting(w, ctx, bid, k);
    Basics(w, bid);
    if ins.b == 0 || !Cramped(w.dev, b.depth) {
      ForMeans(w, bid, k, fuel, m);
    }
    if ins.b == 0 {
      r := 0;
      end := SimNoTrips(w, ctx, bid, k, fuel, m, d);
    } else if Cramped(w.dev, b.depth) {
      r := 1;
      end := SimTruncated(w, ctx, bid, k, fuel, m, d);
    } else {
      EntersBlock(w, ctx, bid, k, m, d);
      hide EvalRange, RangeRun, RegionMeaning, LvlRun, Launched, IsChild, Opened, Skips;
      var cid, phase := JobOf(w, bid, k).second, Counter(w.mc.kind, ins.b);
      var o := EvalFor(w.p, w.dev, ins, TripsLeft(phase), b.depth, fuel, m);
      r, end := SimTrips(w, ctx, bid, k, phase, fuel, m, d);
      SimAfter(w.mc, AtLevel(w, ctx, bid, k, m, d), AtLevel(w, Inner(w.n, ctx, b, k, phase), cid, 0, m, d), end, o,
          fuel, 0, r);
    }
  }

  lemma ForMeans(w: World, bid: nat, k: nat, fuel: nat, m: Mem)
    requires IsCtrl(w, bid, k) && w.blocks[bid].depth <= MAX_DEPTH && InsOf(w, bid, k).op == For
    requires InsOf(w, bid, k).b == 0 || !Cramped(w.dev, w.blocks[bid].depth)
    ensures var ins, depth := InsOf(w, bid, k), w.blocks[bid].depth;
            var trips := Trips(w.dev.walker, ins.b);
            && RegionMeaning(w, bid, k, fuel, m) == EvalFor(w.p, w.dev, ins, trips, depth, fuel, m)
            && LvlRun(w, bid, k, fuel, m) == TripsRun(w.p, w.dev, ins, trips, depth, fuel, m)
  {
    hide EvalFor, TripsRun, Trips;
    if InsOf(w, bid, k).b == 0 {
      NoTripsRun(w.p, w.dev, InsOf(w, bid, k), w.blocks[bid].depth, fuel, m);
    }
  }

  lemma NoTripsRun(p: Program, dev: Device, ins: Instr, depth: nat, fuel: nat, m: Mem)
    requires depth <= MAX_DEPTH
    ensures Trips(dev.walker, 0) == 0 && TripsRun(p, dev, ins, 0, depth, fuel, m) == 0
  {
  }

  /** A loop that the host engine has no room for. */
  lemma SimTruncated(w: World, ctx: Ctx, bid: nat, k: nat, fuel: nat, m: Mem, d: nat) returns (end: State)
    requires WorldOk(w) && IsCtrl(w, bid, k) && CtxOk(w.n, ctx, w.blocks[bid].depth) && Shaped(w.n, w.blocks[bid])
    requires Entered(InsOf(w, bid, k)) && Cramped(w.dev, w.blocks[bid].depth)
    ensures PickOk(w.mc) && w.blocks[bid].depth <= MAX_DEPTH
    ensures Simulates(w.mc, AtLevel(w, ctx, bid, k, m, d), RegionMeaning(w, bid, k, fuel, m), fuel, 1, end)
    ensures Concludes(w, ctx, bid, After(w.n, w.blocks[bid], k), RegionMeaning(w, bid, k, fuel, m),
                      d + LvlRun(w, bid, k, fuel, m), end)
  {
    hide WorldOk, HaltsAt, EvalWhile, EvalFor;
    Basics(w, bid);
    HostStopsShort(w, ctx, bid, k, m, d);
    end := AtLevel(w, ctx, bid, k, m, d);
  }

  /** A loop of no trips is stepped over. */
  lemma SimNoTrips(w: World, ctx: Ctx, bid: nat, k: nat, fuel: nat, m: Mem, d: nat) returns (end: State)
    requires WorldOk(w) && IsCtrl(w, bid, k) && CtxOk(w.n, ctx, w.blocks[bid].depth) && Shaped(w.n, w.blocks[bid])
    requires WalksIn(w, bid, k)
    requires InsOf(w, bid, k).op == For && InsOf(w, bid, k).b == 0 && w.blocks[bid].depth <= MAX_DEPTH
    ensures PickOk(w.mc)
    ensures Simulates(w.mc, AtLevel(w, ctx, bid, k, m, d), RegionMeaning(w, bid, k, fuel, m), fuel, 0, end)
    ensures RegionMeaning(w, bid, k, fuel, m).Done?
    ensures EndsAt(w, ctx, bid, After(w.n, w.blocks[bid], k), d + LvlRun(w, bid, k, fuel, m), end)
  {
    hide WorldOk, Leads, Settled;
    ForMeans(w, bid, k, fuel, m);
    SkipsBlock(w, ctx, bid, k, m, d);
    end := State(At(w.n, ctx, w.blocks[bid], After(w.n, w.blocks[bid], k)), Nothing(w.n), m, d);
    NothingLaunched(w.n, end);
    hide RegionMeaning, LvlRun;
  }

  /** The block of a region's range means what the range means. */
  lemma ChildMeans(w: World, bid: nat, range: (nat, nat), cid: nat, fuel: nat, m: Mem)
    requires WorldOk(w) && bid < |w.blocks| && w.blocks[bid].depth < MAX_DEPTH && IsChild(w, bid, range, cid)
    ensures cid < |w.blocks| && w.blocks[cid].depth <= MAX_DEPTH
    ensures Meaning(w, cid, 0, fuel, m) == EvalRange(w.p, w.dev, range, w.blocks[bid].depth + 1, fuel, m)
    ensures BlockRun(w, cid, 0, fuel, m) == RangeRun(w.p, w.dev, range, w.blocks[bid].depth + 1, fuel, m)
  {
    hide WorldOk, EvalRange, RangeRun, EvalList, LevelsRun, RangeSafe, Shaped, LevelsOf, LvlInstrs;
    RangeMeans(w, cid, fuel, m);
  }

  /** The remaining trips of a fixed-trip loop, from the start of its body. */
  lemma {:induction false} SimTrips(w: World, ctx: Ctx, bid: nat, k: nat, phase: int, fuel: nat, m: Mem, d: nat)
    returns (r: nat, end: State)
    requires WorldOk(w) && IsCtrl(w, bid, k) && CtxOk(w.n, ctx, w.blocks[bid].depth) && Shaped(w.n, w.blocks[bid])
    requires InsOf(w, bid, k).op == For
    requires JobOf(w, bid, k).second < |w.blocks| && Shaped(w.n, w.blocks[JobOf(w, bid, k).second])
    ensures PickOk(w.mc) && w.blocks[bid].depth <= MAX_DEPTH
    ensures var o := EvalFor(w.p, w.dev, InsOf(w, bid, k), TripsLeft(phase), w.blocks[bid].depth, fuel, m);
            && Simulates(w.mc, AtLevel(w, Inner(w.n, ctx, w.blocks[bid], k, phase), JobOf(w, bid, k).second, 0, m, d),
              o, fuel, r, end)
            && Concludes(w, ctx, bid, After(w.n, w.blocks[bid], k), o,
                         d + TripsRun(w.p, w.dev, InsOf(w, bid, k), TripsLeft(phase), w.blocks[bid].depth, fuel, m),
                         end)
    decreases MAX_DEPTH + 1 - w.blocks[bid].depth, 0, 1, TripsLeft(phase)
  {
    hide WorldOk, Leads, Settled, RangeSafe, SomeEntry, EvalRange, RangeRun, Meaning, BlockRun, Inner, FirstRange,
        SecondRange, LaneCtxOk, RunsFor, HaltsAt, CrashesAt;
    var b, ins, cid := w.blocks[bid], InsOf(w, bid, k), JobOf(w, bid, k).second;
    RegionSetting(w, ctx, bid, k);
    ChildMeans(w, bid, SecondRange(ins), cid, fuel, m);
    var inner := Inner(w.n, ctx, b, k, phase);
    var start := AtLevel(w, inner, cid, 0, m, d);
    r, end := SimBlock(w, inner, cid, 0, fuel, m, d);
    var o := Meaning(w, cid, 0, fuel, m);
    hide IsChild;
    if o.Done? {
      LeadsOk(w.mc, start, end, r);
      ForRound(w, ctx, bid, k, phase, end, o.mem);
      var d2 := Launched(end, end.pend);
      var next := State(ForStacks(w, ctx, bid, k, phase), Nothing(w.n), o.mem, d2);
      if phase <= 1 {
        NothingSettles(w.mc, next.stacks, w.n, o.mem, d2);
        NothingLaunched(w.n, next);
        SimEnds(w.mc, start, end, next, o.mem, fuel, r);
        r, end := r + 1, next;
      } else {
        var r2, end2 := SimTrips(w, ctx, bid, k, phase - 1, fuel, o.mem, d2);
        SimChain(w.mc, start, end, next, end2, EvalFor(w.p, w.dev, ins, TripsLeft(phase) - 1, b.depth, fuel, o.mem),
            fuel, fuel, r, r2);
        r, end := r + 1 + r2, end2;
      }
    }
  }

  lemma {:induction false} SimWhile(w: World, ctx: Ctx, bid: nat, k: nat, fuel: nat, m: Mem, d: nat)
    returns (r: nat, end: State)
    requires WorldOk(w) && IsCtrl(w, bid, k) && CtxOk(w.n, ctx, w.blocks[bid].depth) && Shaped(w.n, w.blocks[bid])
    requires InsOf(w, bid, k).op == While
    ensures PickOk(w.mc) && w.blocks[bid].depth <= MAX_DEPTH
    ensures Simulates(w.mc, AtLevel(w, ctx, bid, k, m, d), RegionMeaning(w, bid, k, fuel, m), fuel, r, end)
    ensures Concludes(w, ctx, bid, After(w.n, w.blocks[bid], k), RegionMeaning(w, bid, k, fuel, m),
                      d + LvlRun(w, bid, k, fuel, m), end)
    decreases MAX_DEPTH + 1 - w.blocks[bid].depth, 0, 2
  {
    hide WorldOk, RangeSafe, EvalWhile, TestsRun, EndsAt, Simulates, Leads;
    var b, ins := w.blocks[bid], InsOf(w, bid, k);
    var start := AtLevel(w, ctx, bid, k, m, d);
    RegionSetting(w, ctx, bid, k);
    Basics(w, bid);
    if Cramped(w.dev, b.depth) {
      r := 1;
      end := SimTruncated(w, ctx, bid, k, fuel, m, d);
    } else {
      WhileMeans(w, bid, k, fuel, m);
      EntersBlock(w, ctx, bid, k, m, d);
      hide Leads, Settled, EvalWhile, TestsRun, EvalRange, RangeRun, RegionMeaning, LvlRun, Launched, RangeSafe, EndsAt,
          Simulates, IsChild, Opened, Skips;
      var cid := JobOf(w, bid, k).first;
      var o := EvalWhile(w.p, w.dev, ins, b.depth, fuel, fuel, m);
      r, end := SimTests(w, ctx, bid, k, fuel, fuel, m, d);
      SimAfter(w.mc, start, AtLevel(w, Inner(w.n, ctx, b, k, 0), cid, 0, m, d), end, o, fuel, 0, r);
    }
  }

  lemma WhileMeans(w: World, bid: nat, k: nat, fuel: nat, m: Mem)
    requires IsCtrl(w, bid, k) && w.blocks[bid].depth <= MAX_DEPTH && InsOf(w, bid, k).op == While
    requires !Cramped(w.dev, w.blocks[bid].depth)
    ensures var ins, depth := InsOf(w, bid, k), w.blocks[bid].depth;
            && RegionMeaning(w, bid, k, fuel, m) == EvalWhile(w.p, w.dev, ins, depth, fuel, fuel, m)
            && LvlRun(w, bid, k, fuel, m) == TestsRun(w.p, w.dev, ins, depth, fuel, fuel, m)
  {
    hide EvalWhile, TestsRun;
  }

  /** The remaining tests of a condition loop, from the start of its condition. */
  lemma {:induction false} SimTests(w: World, ctx: Ctx, bid: nat, k: nat, fuel: nat, left: nat, m: Mem, d: nat)
    returns (r: nat, end: State)
    requires WorldOk(w) && IsCtrl(w, bid, k) && CtxOk(w.n, ctx, w.blocks[bid].depth) && Shaped(w.n, w.blocks[bid])
    requires InsOf(w, bid, k).op == While && left <= fuel
    requires JobOf(w, bid, k).first < |w.blocks| && Shaped(w.n, w.blocks[JobOf(w, bid, k).first])
    ensures PickOk(w.mc) && w.blocks[bid].depth <= MAX_DEPTH
    ensures var o := EvalWhile(w.p, w.dev, InsOf(w, bid, k), w.blocks[bid].depth, fuel, left, m);
            && Simulates(w.mc, AtLevel(w, Inner(w.n, ctx, w.blocks[bid], k, 0), JobOf(w, bid, k).first, 0, m, d), o,
              left, r, end)
            && Concludes(w, ctx, bid, After(w.n, w.blocks[bid], k), o,
                         d + TestsRun(w.p, w.dev, InsOf(w, bid, k), w.blocks[bid].depth, fuel, left, m), end)
    decreases MAX_DEPTH + 1 - w.blocks[bid].depth, 0, 1, left, 0
  {
    hide WorldOk, Leads, Settled, RangeSafe, SomeEntry, EvalRange, RangeRun, Meaning, BlockRun, Inner, FirstRange,
        SecondRange, LaneCtxOk, RunsFor, HaltsAt, CrashesAt;
    var b, ins, cid := w.blocks[bid], InsOf(w, bid, k), JobOf(w, bid, k).first;
    RegionSetting(w, ctx, bid, k);
    var inner := Inner(w.n, ctx, b, k, 0);
    var start := AtLevel(w, inner, cid, 0, m, d);
    AtOk(w, inner, w.blocks[cid], w.blocks[cid].at[0], Nothing(w.n), m, d);
    if left == 0 {
      r, end := 0, start;
      NoRounds(w.mc, start);
    } else {
      ChildMeans(w, bid, FirstRange(ins), cid, fuel, m);
      r, end := SimBlock(w, inner, cid, 0, fuel, m, d);
      var o := Meaning(w, cid, 0, fuel, m);
      SimLess(w.mc, start, end, o, fuel, left, r);
      hide IsChild;
      if o.Done? {
        LeadsOk(w.mc, start, end, r);
        TestRound(w, ctx, bid, k, end, o.mem);
        var d2 := Launched(end, end.pend);
        var next := State(TestStacks(w, ctx, bid, k, o.mem), Nothing(w.n), o.mem, d2);
        if Get(o.mem, Cell(ins.dst, 0)) == 0 {
          NothingSettles(w.mc, next.stacks, w.n, o.mem, d2);
          NothingLaunched(w.n, next);
          SimEnds(w.mc, start, end, next, o.mem, left, r);
          r, end := r + 1, next;
        } else {
          var r2, end2 := SimBody(w, ctx, bid, k, fuel, left, o.mem, d2);
          SimChain(w.mc, start, end, next, end2, AfterTest(w, bid, k, fuel, left, o.mem), left, left, r, r2);
          r, end := r + 1 + r2, end2;
        }
      }
    }
  }

  /** The body of a condition loop and all that follows it. */
  function AfterTest(w: World, bid: nat, k: nat, fuel: nat, left: nat, m: Mem): Outcome
    requires IsCtrl(w, bid, k) && w.blocks[bid].depth < MAX_DEPTH && left > 0
  {
    match EvalRange(w.p, w.dev, SecondRange(InsOf(w, bid, k)), w.blocks[bid].depth + 1, fuel, m)
    case Done(m') => EvalWhile(w.p, w.dev, InsOf(w, bid, k), w.blocks[bid].depth, fuel, left - 1, m')
    case stopped => stopped
  }

  lemma {:induction false} SimBody(w: World, ctx: Ctx, bid: nat, k: nat, fuel: nat, left: nat, m: Mem, d: nat)
    returns (r: nat, end: State)
    requires WorldOk(w) && IsCtrl(w, bid, k) && CtxOk(w.n, ctx, w.blocks[bid].depth) && Shaped(w.n, w.blocks[bid])
    requires InsOf(w, bid, k).op == While && 0 < left <= fuel && w.blocks[bid].depth < MAX_DEPTH
    requires JobOf(w, bid, k).second < |w.blocks| && Shaped(w.n, w.blocks[JobOf(w, bid, k).second])
    ensures PickOk(w.mc)
    ensures var o := AfterTest(w, bid, k, fuel, left, m);
            && Simulates(w.mc, AtLevel(w, Inner(w.n, ctx, w.blocks[bid], k, 1), JobOf(w, bid, k).second, 0, m, d), o,
              left, r, end)
            && Concludes(w, ctx, bid, After(w.n, w.blocks[bid], k), o,
                         d + BodyRun(w.p, w.dev, InsOf(w, bid, k), w.blocks[bid].depth, fuel, left, m), end)
    decreases MAX_DEPTH + 1 - w.blocks[bid].depth, 0, 1, left - 1, 1
  {
    hide WorldOk, Leads, Settled, RangeSafe, SomeEntry, EvalRange, RangeRun, Meaning, BlockRun, Inner, FirstRange,
        SecondRange, LaneCtxOk, RunsFor, HaltsAt, CrashesAt;
    var b, ins, cid, did := w.blocks[bid], InsOf(w, bid, k), JobOf(w, bid, k).first, JobOf(w, bid, k).second;
    RegionSetting(w, ctx, bid, k);
    var inner := Inner(w.n, ctx, b, k, 1);
    var start := AtLevel(w, inner, did, 0, m, d);
    ChildMeans(w, bid, SecondRange(ins), did, fuel, m);
    r, end := SimBlock(w, inner, did, 0, fuel, m, d);
    var o := Meaning(w, did, 0, fuel, m);
    SimLess(w.mc, start, end, o, fuel, left, r);
    hide IsChild;
    if o.Done? {
      LeadsOk(w.mc, start, end, r);
      assert cid < |w.blocks| && Shaped(w.n, w.blocks[cid]) by {
        CtrlFacts(w, bid, k);
      }
      AgainRound(w, ctx, bid, k, end, o.mem);
      var d2 := Launched(end, end.pend);
      var next := AtLevel(w, Inner(w.n, ctx, b, k, 0), cid, 0, o.mem, d2);
      var r2, end2 := SimTests(w, ctx, bid, k, fuel, left - 1, o.mem, d2);
      SimChain(w.mc, start, end, next, end2, EvalWhile(w.p, w.dev, ins, b.depth, fuel, left - 1, o.mem), left - 1, left,
          r, r2);
      r, end := r + 1 + r2, end2;
    }
  }
}
