/** What the host engine does at a region that it has no room for: it takes a loop for the end of
    the program, and it reports an If unless nothing at all is laid out for the chosen branch. */
module HostLimits {
  import opened Isa
  import opened OnePhase
  import opened Reference
  import opened Levels
  import opened PhaseCount
  import opened Layout
  import opened Scheduler
  import opened Engine
  import opened RoundLaws
  import opened Simulation
  import opened FrameWalk
  import opened HostRoom

  // ----- branches without entries ---------------------------------------------------------------

  lemma LightMakes(p: Program, lvls: seq<Lvl>)
    requires |lvls| == |LevelsOf(lvls)| == 1
    ensures LevelsOf(lvls) == [match lvls[0] case Work(part, _) => Compute(part) case Ctrl(i, _) => Region(i)]
  {
    assert lvls[1..] == [];
  }

  /** One level of compute leaves all lanes empty exactly when it has no tile. */
  lemma OneLevelBlank(w: World, cid: nat)
    requires WorldOk(w) && cid < |w.blocks| && |w.blocks[cid].lvls| == 1 && w.blocks[cid].lvls[0].Work?
    ensures Blank(w, cid) <==> !HasTile(w.p, w.blocks[cid].lvls[0].part)
  {
    hide HasTile;
    Basics(w, cid);
    BlockFacts(w, cid);
    WorkEntries(w, cid, 0);
    hide WorldOk, HasTile;
    var c := w.blocks[cid];
    forall L: nat | L < w.n
      ensures HasLane(c, L) && Length(c, L) == |LevelPend(w.n, c, 0)[L]|
    {
      BlockHasLane(w.p, w.n, w.mc.streams, w.owner, w.jobs, c, L);
      WorkLane(w, cid, 0, L);
      assert After(w.n, c, 0)[L] == c.at[1][L];
    }
  }

  /** The block of a region's range leaves all lanes empty exactly when the range is bare. */
  lemma BlankMeans(w: World, cid: nat)
    requires WorldOk(w) && cid < |w.blocks| && w.blocks[cid].depth > 0
    ensures Blank(w, cid) <==> Bare(w.p, w.blocks[cid].range)
  {
    var c := w.blocks[cid];
    Basics(w, cid);
    BlockFacts(w, cid);
    hide WorldOk, RowsOk, Bare, HasTile, LevelsFrom, LevelsOf, Live, LvlInstrs;
    BareIdle(w.p, c.range, c.depth);
    if |c.lvls| == 0 {
      forall L: nat | L < w.n
        ensures HasLane(c, L)
      {
        BlockHasLane(w.p, w.n, w.mc.streams, w.owner, w.jobs, c, L);
      }
    } else if !Light(c) {
      HeavyLength(w, cid, 0);
      if |c.lvls| == 1 {
        LightMakes(w.p, c.lvls);
      }
    } else {
      LightMakes(w.p, c.lvls);
      OneLevelBlank(w, cid);
    }
  }

  // ----- regions without room ---------------------------------------------------------------------

  /** A loop that the interpreter enters at all. */
  predicate Entered(ins: Instr) {
    ins.op == While || (ins.op == For && ins.b > 0)
  }

  /** A lane of the host engine that comes to such a loop without room for it takes the program
      for finished. */
  lemma LoopEnds(w: World, ctx: Ctx, bid: nat, k: nat, st: State, L: nat)
    requires WorldOk(w) && IsCtrl(w, bid, k) && CtxOk(w.n, ctx, w.blocks[bid].depth) && L < w.n == |w.mc.streams|
    requires w.mc.kind == HostDispatch && !CanNest(HostDispatch, w.blocks[bid].depth) && Entered(InsOf(w, bid, k))
    requires Shaped(w.n, w.blocks[bid]) && StateOk(w.mc, st)
    requires st.stacks == At(w.n, ctx, w.blocks[bid], w.blocks[bid].at[k])
    ensures LaneAtEvent(w.mc, st, Finished, L)
  {
    hide WorldOk;
    CtrlLane(w, bid, k, L);
    LaneStack(w.n, ctx, w.blocks[bid], w.blocks[bid].at[k], L);
  }

  /** Coming to a loop at its depth limit, the host engine halts there and then: the loop and all
      that follows it are left out, and nothing is reported. The interpreter has room for one
      more level and goes on. */
  lemma HostStopsShort(w: World, ctx: Ctx, bid: nat, k: nat, m: Mem, d: nat)
    requires WorldOk(w) && IsCtrl(w, bid, k) && CtxOk(w.n, ctx, w.blocks[bid].depth) && Shaped(w.n, w.blocks[bid])
    requires w.mc.kind == HostDispatch && !CanNest(HostDispatch, w.blocks[bid].depth) && Entered(InsOf(w, bid, k))
    ensures PickOk(w.mc) && HaltsAt(w.mc, AtLevel(w, ctx, bid, k, m, d), 1, m, d)
    ensures CanNest(Simulator, w.blocks[bid].depth)
  {
    hide WorldOk, Settled, LaneAtEvent, Entered;
    Basics(w, bid);
    RegionSetting(w, ctx, bid, k);
    var st := AtLevel(w, ctx, bid, k, m, d);
    AtOk(w, ctx, w.blocks[bid], w.blocks[bid].at[k], Nothing(w.n), m, d);
    forall L | 0 <= L < |w.mc.streams|
      ensures LaneAtEvent(w.mc, st, Finished, L)
    {
      LoopEnds(w, ctx, bid, k, st, L);
    }
    NothingSettles(w.mc, st.stacks, w.n, m, d);
    NothingLaunched(w.n, st);
    FinishHalts(w.mc, st, m);
  }

  lemma BranchLacksRoom(w: World, ctx: Ctx, bid: nat, k: nat, m: Mem, st: State, L: nat)
    requires WorldOk(w) && IsCtrl(w, bid, k) && CtxOk(w.n, ctx, w.blocks[bid].depth) && L < w.n == |w.mc.streams|
    requires w.mc.kind == HostDispatch && !CanNest(HostDispatch, w.blocks[bid].depth) && InsOf(w, bid, k).op == If
    requires Shaped(w.n, w.blocks[bid]) && StateOk(w.mc, st) && st.mem == m
    requires st.stacks == At(w.n, ctx, w.blocks[bid], w.blocks[bid].at[k])
    requires Chosen(w, bid, k, m) < |w.blocks| && HasLane(w.blocks[Chosen(w, bid, k, m)], L)
    ensures LaneAtEvent(w.mc, st, Branch, L)
    ensures CanResolve(w.mc.streams[L], st.stacks[L], Branch, m) <==> Length(w.blocks[Chosen(w, bid, k, m)], L) == 0
  {
    hide WorldOk, MoveLane, Resolve, StackOk, BranchLength, BranchStart, Chosen, InsOf;
    BranchEntry(w, bid, k, m, L);
    var b := w.blocks[bid];
    LaneStack(w.n, ctx, b, b.at[k], L);
    var f := Frame(b.at[k][L], b.at[|b.lvls|][L], ctx.widx[L], ctx.phase);
    BranchMove(w.mc.streams[L], ctx.base[L], f, m);
  }

  /** An If at the depth limit is reported as an error, unless no lane has an entry for the chosen
      branch. */
  lemma HostReportsBranch(w: World, ctx: Ctx, bid: nat, k: nat, m: Mem, d: nat)
    requires WorldOk(w) && IsCtrl(w, bid, k) && CtxOk(w.n, ctx, w.blocks[bid].depth) && Shaped(w.n, w.blocks[bid])
    requires w.mc.kind == HostDispatch && !CanNest(HostDispatch, w.blocks[bid].depth) && InsOf(w, bid, k).op == If
    requires !Blank(w, Chosen(w, bid, k, m))
    ensures PickOk(w.mc) && CrashesAt(w.mc, AtLevel(w, ctx, bid, k, m, d), 1)
  {
    hide WorldOk, Settled, LaneAtEvent, CanResolve, Chosen, InsOf;
    Basics(w, bid);
    RegionSetting(w, ctx, bid, k);
    var st := AtLevel(w, ctx, bid, k, m, d);
    AtOk(w, ctx, w.blocks[bid], w.blocks[bid].at[k], Nothing(w.n), m, d);
    BranchEntry(w, bid, k, m, 0);
    forall R: nat | R < w.n
      ensures HasLane(w.blocks[Chosen(w, bid, k, m)], R) && LaneAtEvent(w.mc, st, Branch, R)
    {
      BranchEntry(w, bid, k, m, R);
      BranchLacksRoom(w, ctx, bid, k, m, st, R);
    }
    var L: nat :| L < w.n && Length(w.blocks[Chosen(w, bid, k, m)], L) > 0;
    BranchLacksRoom(w, ctx, bid, k, m, st, L);
    NothingSettles(w.mc, st.stacks, w.n, m, d);
    FaultCrashes(w.mc, st, Branch, m, L);
  }

  /** A branch without entries is stepped over at any depth, in a round of its own. */
  lemma HostSkipsBranch(w: World, ctx: Ctx, bid: nat, k: nat, m: Mem, d: nat) returns (end: State)
    requires WorldOk(w) && IsCtrl(w, bid, k) && CtxOk(w.n, ctx, w.blocks[bid].depth) && Shaped(w.n, w.blocks[bid])
    requires w.mc.kind == HostDispatch && InsOf(w, bid, k).op == If && Blank(w, Chosen(w, bid, k, m))
    ensures PickOk(w.mc) && Leads(w.mc, AtLevel(w, ctx, bid, k, m, d), end, 1) && Settled(w.mc, end, m)
    ensures EndsAt(w, ctx, bid, After(w.n, w.blocks[bid], k), d, end)
  {
    hide WorldOk, InsOf, Leads, Settled, JobOf;
    Basics(w, bid);
    var b, cid := w.blocks[bid], Chosen(w, bid, k, m);
    BranchRound(w, ctx, bid, k, m, d);
    var row := After(w.n, b, k);
    assert BranchStacks(w, ctx, bid, k, cid) == At(w.n, ctx, b, row);
    end := State(At(w.n, ctx, b, row), Nothing(w.n), m, d);
    NothingSettles(w.mc, end.stacks, w.n, m, d);
    NothingLaunched(w.n, end);
  }
}
