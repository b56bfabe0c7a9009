/** End to end: for every program, lane count, cost table and interleaving, and on either engine,
    running the streams that the scheduler builds is running the recursive interpreter. */
module EndToEnd {
  import opened Arith
  import opened Isa
  import opened Interleave
  import opened Streams
  import opened OnePhase
  import opened Reference
  import opened PhaseCount
  import opened Layout
  import opened Scheduler
  import opened Engine
  import opened RoundLaws
  import opened Simulation
  import opened FrameWalk
  import opened HostRoom
  import opened Refinement

  /** The outermost surroundings: no frames below, the whole stream above. */
  function RootCtx(n: nat): Ctx {
    Ctx(seq(n, L => []), seq(n, L => ROOT), 0)
  }

  lemma RootStart(w: World, m: Mem)
    requires WorldOk(w)
    ensures w.blocks != [] && Shaped(w.n, w.blocks[0]) && w.blocks[0].depth == 0
    ensures CtxOk(w.n, RootCtx(w.n), 0)
    ensures Initial(w.s, m) == AtLevel(w, RootCtx(w.n), 0, 0, m, 0)
  {
    BlockFacts(w, 0);
    var b := w.blocks[0];
    hide BlockOk, KernelsOk, ViewsSafe, PickOk;
    assert b.at[0] == seq(w.n, L => 0);
    var stacks := At(w.n, RootCtx(w.n), b, b.at[0]);
    forall L | 0 <= L < w.n
      ensures Initial(w.s, m).stacks[L] == stacks[L]
    {
      assert stacks[L] == [] + [Frame(0, b.at[|b.lvls|][L], ROOT, 0)];
    }
    assert Initial(w.s, m).stacks == stacks;
  }

  /** At the end of the root block every lane reports that it is finished. */
  lemma RootEnd(w: World, st: State)
    requires WorldOk(w) && w.blocks != [] && Shaped(w.n, w.blocks[0]) && StateOk(w.mc, st)
    requires st.stacks == At(w.n, RootCtx(w.n), w.blocks[0], w.blocks[0].at[|w.blocks[0].lvls|])
    ensures AtEvent(w.mc, st, Finished)
  {
    Basics(w, 0);
    hide WorldOk;
    var b := w.blocks[0];
    forall L | 0 <= L < |w.mc.streams|
      ensures LaneAtEvent(w.mc, st, Finished, L)
    {
      var f := Frame(b.at[|b.lvls|][L], b.at[|b.lvls|][L], ROOT, 0);
      assert st.stacks[L] == [] + [f];
      TopOf([], f);
    }
  }

  lemma SafeRoot(w: World)
    requires WorldOk(w)
    ensures w.blocks != [] && w.blocks[0].range == (0, w.p.mainLen) && RangeSafe(w.p, w.blocks[0].range)
  {
  }

  /** The program means what its root block means. */
  lemma RootMeans(w: World, fuel: nat, m: Mem)
    requires WorldOk(w) && w.blocks != [] && w.blocks[0].depth == 0 && w.blocks[0].range == (0, w.p.mainLen)
    ensures Execute(w.p, w.dev, fuel, m) == Meaning(w, 0, 0, fuel, m)
    ensures PhasesRun(w.p, w.dev, fuel, m) == BlockRun(w, 0, 0, fuel, m)
  {
    hide WorldOk, EvalList, LevelsRun, EvalRange, RangeRun, LevelsOf, LvlInstrs;
    RangeMeans(w, 0, fuel, m);
  }

  /** What the machine does from `st` when the interpreter's outcome is `o`: it halts or crashes after
      some number of rounds, or is still running after `fuel` rounds. */
  ghost predicate Matches(mc: Machine, st: State, o: Outcome, launched: nat, fuel: nat)
    requires PickOk(mc)
  {
    match o
    case Done(m) => exists r: nat :: HaltsAt(mc, st, r, m, launched)
    case Truncated(m) => exists r: nat :: HaltsAt(mc, st, r, m, launched)
    case Failed => exists r: nat :: CrashesAt(mc, st, r)
    case OutOfFuel => RunsFor(mc, st, fuel)
  }

  lemma RootRun(w: World, fuel: nat, m: Mem)
    requires WorldOk(w)
    ensures PickOk(w.mc)
    ensures Matches(w.mc, Initial(w.s, m), Execute(w.p, w.dev, fuel, m), PhasesRun(w.p, w.dev, fuel, m), fuel)
  {
    hide WorldOk, Execute, PhasesRun, BlockRun, Meaning, Leads, RunsFor, StateOk, Settled, Launched, At, RangeSafe,
        HaltsAt, CrashesAt;
    RootStart(w, m);
    SafeRoot(w);
    Basics(w, 0);
    RootMeans(w, fuel, m);
    AtOk(w, RootCtx(w.n), w.blocks[0], w.blocks[0].at[0], Nothing(w.n), m, 0);
    var r, end := SimBlock(w, RootCtx(w.n), 0, 0, fuel, m, 0);
    var start, o := AtLevel(w, RootCtx(w.n), 0, 0, m, 0), Execute(w.p, w.dev, fuel, m);
    if o.Done? {
      LeadsOk(w.mc, start, end, r);
      RootEnd(w, end);
      FinishHalts(w.mc, end, o.mem);
      HaltsVia(w.mc, start, end, r, 1, o.mem, Launched(end, end.pend));
    }
  }

  /** Reading an outcome off an answer. */
  lemma MatchedAnswer(mc: Machine, st: State, o: Outcome, launched: nat, fuel: nat)
    requires PickOk(mc) && Matches(mc, st, o, launched, fuel)
    ensures StateOk(mc, st) && Segmented(mc, st, fuel)
    ensures match Rounds(mc, st, fuel)
            case Halted(m, d) => (o == Done(m) || o == Truncated(m)) && d == launched
            case Crashed => o == Failed
            case Running => true
  {
    hide StateOk, Rounds, Segmented;
    match o {
      case Done(m) =>
        var r: nat :| HaltsAt(mc, st, r, m, launched);
        assert StateOk(mc, st);
        assert Rounds(mc, st, fuel) == (if fuel < r then Running else Halted(m, launched));
      case Truncated(m) =>
        var r: nat :| HaltsAt(mc, st, r, m, launched);
        assert StateOk(mc, st);
        assert Rounds(mc, st, fuel) == (if fuel < r then Running else Halted(m, launched));
      case Failed =>
        var r: nat :| CrashesAt(mc, st, r);
        assert StateOk(mc, st);
        assert Rounds(mc, st, fuel) == (if fuel < r then Running else Crashed);
      case OutOfFuel =>
        assert StateOk(mc, st) && Rounds(mc, st, fuel) == Running;
    }
  }

  /** The engines, exactly. Whatever the program, an engine halts, crashes or runs on just as the
      interpreter under the engine's own limits finishes or is cut, fails, or needs more fuel: with the
      same memory, and one batch launched for each phase run. And every lane's entries between two
      events are one contiguous run of its stream. */
  lemma EngineIsReference(p: Program, n: pos, dev: Device, s: Schedule, owner: seq<nat>, blocks: seq<Block>,
                          jobs: seq<Job>, pick: (nat, seq<seq<Step>>) -> seq<nat>, fuel: nat, m: Mem)
    requires Built(p, n, s, owner, blocks, jobs) && KernelsOk(p, dev) && ViewsSafe(p)
    requires PickOk(Machine(dev.walker, dev, s.tasks, s.laneStreams, pick))
    ensures var mc, o := Machine(dev.walker, dev, s.tasks, s.laneStreams, pick), Execute(p, dev, fuel, m);
            && Matches(mc, Initial(s, m), o, PhasesRun(p, dev, fuel, m), fuel)
            && StateOk(mc, Initial(s, m)) && Segmented(mc, Initial(s, m), fuel)
            && match Rounds(mc, Initial(s, m), fuel)
               case Halted(m', launched) => (o == Done(m') || o == Truncated(m'))
                 && launched == PhasesRun(p, dev, fuel, m)
               case Crashed => o == Failed
               case Running => true
  {
    hide Matches, Execute, PhasesRun, Rounds, Segmented, StateOk;
    var mc := Machine(dev.walker, dev, s.tasks, s.laneStreams, pick);
    RootRun(World(p, n, dev, s, owner, blocks, jobs, mc), fuel, m);
    MatchedAnswer(mc, Initial(s, m), Execute(p, dev, fuel, m), PhasesRun(p, dev, fuel, m), fuel);
  }

  ghost predicate HaltsWith(mc: Machine, st: State, m: Mem, launched: nat)
    requires PickOk(mc) && StateOk(mc, st)
  {
    exists enough: nat :: Rounds(mc, st, enough) == Halted(m, launched)
  }

  lemma MatchedHalts(mc: Machine, st: State, o: Outcome, launched: nat, fuel: nat)
    requires PickOk(mc) && Matches(mc, st, o, launched, fuel) && o.Done?
    ensures StateOk(mc, st) && HaltsWith(mc, st, o.mem, launched)
  {
    hide StateOk, Rounds, Segmented;
    var r: nat :| HaltsAt(mc, st, r, o.mem, launched);
    assert StateOk(mc, st) && Rounds(mc, st, r) == Halted(o.mem, launched);
  }

  /** The main theorem. Where the engine's limits are not felt, and whatever number of rounds it is
      given: it never crashes (so lanes never disagree on an event), and if it halts, the interpreter
      finishes with the same memory and has run as many phases as batches were launched. And if the
      interpreter finishes, enough rounds make the engine halt so. */
  lemma ScheduleIsReference(p: Program, n: pos, dev: Device, s: Schedule, owner: seq<nat>, blocks: seq<Block>,
                            jobs: seq<Job>, pick: (nat, seq<seq<Step>>) -> seq<nat>, rounds: nat, m: Mem)
    requires Built(p, n, s, owner, blocks, jobs) && KernelsOk(p, dev) && ViewsSafe(p) && Unfelt(p, dev)
    requires PickOk(Machine(dev.walker, dev, s.tasks, s.laneStreams, pick))
    ensures var mc := Machine(dev.walker, dev, s.tasks, s.laneStreams, pick);
            && StateOk(mc, Initial(s, m))
            && var answer, free := Rounds(mc, Initial(s, m), rounds), Unlimited(dev);
               && answer != Crashed
               && (answer.Halted? ==>
                 Execute(p, free, rounds, m) == Done(answer.mem) && answer.launched == PhasesRun(p, free, rounds, m))
               && (forall fuel: nat | Execute(p, free, fuel, m).Done? ::
                     HaltsWith(mc, Initial(s, m), Execute(p, free, fuel, m).mem, PhasesRun(p, free, fuel, m)))
  {
    var mc, free := Machine(dev.walker, dev, s.tasks, s.laneStreams, pick), Unlimited(dev);
    RootNested(p, n, s, owner, blocks, jobs);
    hide Matches, Execute, PhasesRun, Rounds, Segmented, StateOk, Built, KernelsOk, ViewsSafe, HaltsWith, PickOk;
    EngineIsReference(p, n, dev, s, owner, blocks, jobs, pick, rounds, m);
    LimitsUnfelt(p, dev, rounds, m);
    forall fuel: nat | Execute(p, free, fuel, m).Done?
      ensures HaltsWith(mc, Initial(s, m), Execute(p, free, fuel, m).mem, PhasesRun(p, free, fuel, m))
    {
      EngineIsReference(p, n, dev, s, owner, blocks, jobs, pick, fuel, m);
      LimitsUnfelt(p, dev, fuel, m);
      MatchedHalts(mc, Initial(s, m), Execute(p, dev, fuel, m), PhasesRun(p, dev, fuel, m), fuel);
    }
  }

  /** A program that has been scheduled is nested. */
  lemma RootNested(p: Program, n: pos, s: Schedule, owner: seq<nat>, blocks: seq<Block>, jobs: seq<Job>)
    requires Built(p, n, s, owner, blocks, jobs)
    ensures Nested(p, (0, p.mainLen), 0)
  {
    assert BlockOk(p, n, s.laneStreams, owner, jobs, blocks[0]);
  }

  /** Compiling and running a program on either engine, bounded by a number of rounds. */
  method CompileAndRun(p: Program, n: pos, dev: Device, pick: (nat, seq<seq<Step>>) -> seq<nat>, rounds: nat, m: Mem)
    returns (answer: Answer)
    requires |p.instrs| < TASK_FOR && Nested(p, (0, p.mainLen), 0)
    requires KernelsOk(p, dev) && ViewsSafe(p)
    requires forall k, lanes :: ValidSched(lanes, pick(k, lanes))
    ensures answer == Crashed ==> Execute(p, dev, rounds, m) == Failed
    ensures answer.Halted? ==>
        && Execute(p, dev, rounds, m) in {Done(answer.mem), Truncated(answer.mem)}
        && answer.launched == PhasesRun(p, dev, rounds, m)
    ensures Unfelt(p, dev) ==> answer != Crashed
    ensures Unfelt(p, dev) && answer.Halted? ==>
        && Execute(p, Unlimited(dev), rounds, m) == Done(answer.mem)
        && answer.launched == PhasesRun(p, Unlimited(dev), rounds, m)
  {
    hide Execute, PhasesRun, Rounds, Segmented, KernelsOk, ViewsSafe, Nested, Unfelt, Matches, Built;
    var s;
    ghost var owner, blocks, jobs;
    s, owner, blocks, jobs := ScheduleProgram(p, n);
    var mc := Machine(dev.walker, dev, s.tasks, s.laneStreams, pick);
    assert PickOk(mc) by {
      assert forall k, lanes {:trigger Answers(mc, k, lanes)} :: Answers(mc, k, lanes);
    }
    EngineIsReference(p, n, dev, s, owner, blocks, jobs, pick, rounds, m);
    if Unfelt(p, dev) {
      ScheduleIsReference(p, n, dev, s, owner, blocks, jobs, pick, rounds, m);
    }
    StreamsMatch(p, n, s, owner, blocks, jobs);
    answer := RunControl(mc, s, m, rounds);
  }

  lemma StreamsMatch(p: Program, n: pos, s: Schedule, owner: seq<nat>, blocks: seq<Block>, jobs: seq<Job>)
    requires Built(p, n, s, owner, blocks, jobs)
    ensures |s.rootLens| == |s.laneStreams| == n
  {
    assert BlockOk(p, n, s.laneStreams, owner, jobs, blocks[0]);
  }
}
