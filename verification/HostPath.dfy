/** The host engine as it really runs: kernels are queued behind a ring of segment tables and run
    later, the host walks on without knowing the memory, and it learns the memory only where it
    waits for the queue. The answer is that of the engine that runs every batch at once. */
module HostPath {
  import opened Arith
  import opened Isa
  import opened Interleave
  import opened Streams
  import opened OnePhase
  import opened Reference
  import opened PhaseCount
  import opened Layout
  import opened Scheduler
  import opened Engine
  import opened RoundLaws
  import opened Simulation
  import opened HostRoom
  import opened EndToEnd
  import opened HostRing

  // ----- the memory that the host does not need -----------------------------------------------------

  lemma MoveBlind(stream: seq<Entry>, stack: seq<Frame>, m: Mem, m': Mem)
    requires stack != []
    ensures MoveLane(HostDispatch, stream, stack, m) == MoveLane(HostDispatch, stream, stack, m')
  {
  }

  /** The walk of a lane does not look at the memory. */
  lemma {:induction false} WalkBlind(stream: seq<Entry>, stack: seq<Frame>, m: Mem, m': Mem)
    requires StackOk(stack)
    ensures WalkLane(HostDispatch, stream, stack, m) == WalkLane(HostDispatch, stream, stack, m')
    decreases Steps(Longest(stream), stack)
  {
    hide MoveLane, Steps, Longest;
    MoveBlind(stream, stack, m, m');
    var move := MoveLane(HostDispatch, stream, stack, m);
    if move.Go? {
      MoveShrinks(HostDispatch, stream, stack, m);
      WalkBlind(stream, move.stack, m, m');
    }
  }

  lemma WalksBlind(mc: Machine, a: State, b: State)
    requires StateOk(mc, a) && StateOk(mc, b) && mc.kind == HostDispatch && a.stacks == b.stacks
    ensures Walks(mc, a) == Walks(mc, b)
  {
    forall L | 0 <= L < |a.stacks|
      ensures Walks(mc, a)[L] == Walks(mc, b)[L]
    {
      WalkBlind(mc.streams[L], a.stacks[L], a.mem, b.mem);
    }
    assert Walks(mc, a) == Walks(mc, b);
  }

  /** The events for which the host waits and reads the memory. */
  predicate Looks(token: Token) {
    token == WhileCond || token == Branch
  }

  /** The other events are resolved without the memory. */
  lemma ResolveBlind(mc: Machine, ws: seq<Walk>, token: Token, m: Mem, m': Mem)
    requires AllStopped(ws) && |ws| == |mc.streams| && (forall L | 0 <= L < |ws| :: StackOk(ws[L].stack))
    requires !Looks(token)
    ensures AllResolve(mc, ws, token, m) <==> AllResolve(mc, ws, token, m')
    ensures AllResolve(mc, ws, token, m) ==> Resolved(mc, ws, token, m) == Resolved(mc, ws, token, m')
  {
  }

  // ----- batches as tables ----------------------------------------------------------------------------

  /** What a lane writes into the table: the position of its first entry, and how many there were. */
  function SegmentOf(pcs: seq<nat>): (nat, nat) {
    if pcs == [] then (0, 0) else (pcs[0], |pcs|)
  }

  /** The positions that a segment kernel reads in each lane. */
  function Positions(table: Table): (batch: seq<seq<nat>>)
    ensures |batch| == |table| && forall L | 0 <= L < |batch| :: batch[L] == Upto(table[L].0, table[L].1)
  {
    seq(|table|, L requires 0 <= L < |table| => Upto(table[L].0, table[L].1))
  }

  lemma SegmentGrows(pcs: seq<nat>, more: seq<nat>)
    ensures SegmentOf(pcs + more) ==
              if pcs == [] then SegmentOf(more) else (SegmentOf(pcs).0, SegmentOf(pcs).1 + |more|)
  {
    if pcs == [] {
      assert pcs + more == more;
    }
  }

  lemma RunIsSegment(pcs: seq<nat>)
    requires IsRun(pcs)
    ensures Upto(SegmentOf(pcs).0, SegmentOf(pcs).1) == pcs
  {
  }

  /** A walk as the host keeps it: without the positions. */
  function Forget(w: Walk): Walk {
    if w.Stopped? then w.(out := []) else Bad
  }

  /** The walk of one lane to its next event. The host notes where the first entry was and counts. */
  method AdvanceHost(stream: seq<Entry>, stack0: seq<Frame>, m: Mem) returns (w: Walk, segment: (nat, nat))
    requires StackOk(stack0)
    ensures var walk := WalkLane(HostDispatch, stream, stack0, m);
            w == Forget(walk) && (walk.Stopped? ==> segment == SegmentOf(walk.out))
  {
    hide MoveLane, WalkLane;
    var stack := stack0;
    segment := (0, 0);
    ghost var out := [];
    EmitNothing(stream, stack0, m);
    while true
      invariant StackOk(stack)
      invariant WalkLane(HostDispatch, stream, stack0, m) == EmitAll(out, WalkLane(HostDispatch, stream, stack, m))
      invariant segment == SegmentOf(out)
      decreases Steps(Longest(stream), stack)
    {
      LastMove(stream, stack, m);
      match MoveLane(HostDispatch, stream, stack, m) {
        case Event(token) =>
          assert out + [] == out;
          return Stopped(token, stack, []), segment;
        case Broken =>
          return Bad, segment;
        case Go(next, more) =>
          MoveShrinks(HostDispatch, stream, stack, m);
          MoveWalks(HostDispatch, stream, stack, m);
          EmitTwice(out, more, WalkLane(HostDispatch, stream, next, m));
          SegmentGrows(out, more);
          if more != [] {
            segment := (if segment.1 == 0 then more[0] else segment.0, segment.1 + |more|);
          }
          stack, out := next, out + more;
      }
    }
  }

  lemma EmitNothing(stream: seq<Entry>, stack: seq<Frame>, m: Mem)
    requires StackOk(stack)
    ensures EmitAll([], WalkLane(HostDispatch, stream, stack, m)) == WalkLane(HostDispatch, stream, stack, m)
  {
    hide WalkLane;
    var walk := WalkLane(HostDispatch, stream, stack, m);
    if walk.Stopped? {
      assert [] + walk.out == walk.out;
    }
  }

  /** A walk that does not go on. */
  lemma LastMove(stream: seq<Entry>, stack: seq<Frame>, m: Mem)
    requires StackOk(stack)
    ensures stack != []
    ensures match MoveLane(HostDispatch, stream, stack, m)
            case Event(token) => WalkLane(HostDispatch, stream, stack, m) == Stopped(token, stack, [])
            case Broken => WalkLane(HostDispatch, stream, stack, m) == Bad
            case Go(_, _) => true
  {
    hide MoveLane;
  }

  /** The walks of all lanes and the table that they fill in. */
  method AdvanceTable(mc: Machine, st: State) returns (ws: seq<Walk>, table: Table)
    requires StateOk(mc, st) && mc.kind == HostDispatch
    ensures |ws| == |table| == |mc.streams|
    ensures forall L | 0 <= L < |ws| :: ws[L] == Forget(Walks(mc, st)[L])
    ensures forall L | 0 <= L < |ws| && Walks(mc, st)[L].Stopped? :: table[L] == SegmentOf(Walks(mc, st)[L].out)
  {
    hide WalkLane, Forget, SegmentOf, StackOk;
    ws, table := [], [];
    var lane := 0;
    while lane < |st.stacks|
      invariant 0 <= lane <= |st.stacks| && |ws| == |table| == lane
      invariant forall L | 0 <= L < lane :: ws[L] == Forget(Walks(mc, st)[L])
      invariant forall L | 0 <= L < lane && Walks(mc, st)[L].Stopped? :: table[L] == SegmentOf(Walks(mc, st)[L].out)
    {
      var w, segment := AdvanceHost(mc.streams[lane], st.stacks[lane], st.mem);
      ws, table := ws + [w], table + [segment];
      lane := lane + 1;
    }
  }

  /** When every lane has walked over one contiguous run, the table describes the batch. */
  lemma TableHolds(mc: Machine, st: State, table: Table)
    requires StateOk(mc, st) && RoundSliced(mc, st) && |table| == |mc.streams| && st.pend == Nothing(|mc.streams|)
    requires forall L | 0 <= L < |table| && Walks(mc, st)[L].Stopped? :: table[L] == SegmentOf(Walks(mc, st)[L].out)
    ensures Positions(table) == Batch(st, Walks(mc, st))
  {
    hide WalkLane, SegmentOf, StackOk, IsRun;
    var ws := Walks(mc, st);
    forall L | 0 <= L < |table|
      ensures Positions(table)[L] == Batch(st, ws)[L]
    {
      assert [] + ws[L].out == ws[L].out;
      assert IsRun(Batch(st, ws)[L]);
      RunIsSegment(ws[L].out);
    }
  }

  // ----- the memory behind the queue --------------------------------------------------------------------

  /** What one kernel does. */
  function Ran(mc: Machine, work: Work, round: nat, m: Mem): Mem
    requires PickOk(mc)
  {
    match work
    case Segment(table) => if BatchOk(mc, Positions(table)) then RunBatch(mc, Positions(table), round, m) else m
    case Matmul(_) => m
  }

  /** The memory after some kernels have run, each with its own interleaving. */
  function Memory(mc: Machine, ran: seq<Work>, rounds: seq<nat>, m: Mem): Mem
    requires PickOk(mc) && |ran| == |rounds|
  {
    if ran == [] then m
    else
      var k := |ran| - 1;
      Ran(mc, ran[k], rounds[k], Memory(mc, ran[..k], rounds[..k], m))
  }

  lemma MemoryNext(mc: Machine, ran: seq<Work>, rounds: seq<nat>, table: Table, round: nat, m: Mem)
    requires PickOk(mc) && |ran| == |rounds| && BatchOk(mc, Positions(table))
    ensures Memory(mc, ran + [Segment(table)], rounds + [round], m)
        == RunBatch(mc, Positions(table), round, Memory(mc, ran, rounds, m))
  {
    hide PickOk, BatchOk, RunBatch;
    assert (ran + [Segment(table)])[..|ran|] == ran && (rounds + [round])[..|rounds|] == rounds;
  }

  // ----- the loop -------------------------------------------------------------------------------------------

  /** The device may make progress at any time. */
  method Progresses(d: Dispatcher, steps: nat)
    requires d.Valid()
    modifies d`queue, d`segTab, d`ran
    ensures d.Valid() && d.program == old(d.program)
  {
    var k := 0;
    while k < steps && d.queue != []
      invariant d.Valid()
    {
      d.Progress();
      k := k + 1;
    }
  }

  predicate Empty(table: Table) {
    forall L | 0 <= L < |table| :: table[L].1 == 0
  }

  /** Stages a batch, unless it is empty. */
  method Stage(mc: Machine, d: Dispatcher, table: Table, rounds: seq<nat>, round: nat, ghost m0: Mem)
    returns (more: seq<nat>)
    requires d.Valid() && PickOk(mc) && BatchOk(mc, Positions(table)) && |rounds| == |d.program|
    modifies d
    ensures d.Valid() && |more| == |d.program| == |old(d.program)| + if SomeEntry(Positions(table)) then 1 else 0
    ensures Memory(mc, d.program, more, m0)
         == RunBatch(mc, Positions(table), round, Memory(mc, old(d.program), rounds, m0))
  {
    hide PickOk, RunBatch, Memory, BatchOk;
    assert SomeEntry(Positions(table)) <==> !Empty(table) by {
      assert forall L | 0 <= L < |table| :: |Positions(table)[L]| == table[L].1;
    }
    if !Empty(table) {
      MemoryNext(mc, d.program, rounds, table, round, m0);
      d.LaunchSegment(table);
      more := rounds + [round];
    } else {
      EmptyBatch(mc, Positions(table), round, Memory(mc, d.program, rounds, m0));
      more := rounds;
    }
  }

  /** Where the loop stands: `st` is the state of the engine that runs every batch at once. */
  ghost predicate Follows(mc: Machine, program: seq<Work>, rounds: seq<nat>, st: State, m0: Mem)
    requires PickOk(mc)
  {
    && StateOk(mc, st) && st.pend == Nothing(|mc.streams|) && |rounds| == |program| == st.launched
    && Memory(mc, program, rounds, m0) == st.mem
  }

  lemma StartFollows(mc: Machine, s: Schedule, m0: Mem)
    requires PickOk(mc) && StateOk(mc, Initial(s, m0)) && |s.rootLens| == |mc.streams|
    ensures Follows(mc, [], [], Initial(s, m0), m0)
  {
  }

  /** What one turn of the event loop comes to. */
  datatype HostTurn = HostStop | HostNext(stacks: seq<seq<Frame>>) | HostFault

  ghost predicate TurnFollows(mc: Machine, t: Turn, turn: HostTurn, program: seq<Work>, ran: seq<Work>,
                              rounds: seq<nat>, m0: Mem)
    requires PickOk(mc)
  {
    match t
    case Stop(m, launched) => turn.HostStop? && ran == program && |rounds| == |program| == launched
      && Memory(mc, ran, rounds, m0) == m
    case Next(next) => turn == HostNext(next.stacks) && Follows(mc, program, rounds, next, m0)
    case Fault => turn.HostFault?
  }

  /** The batch that the lanes have walked over. */
  lemma SameBatch(mc: Machine, st: State, other: State, ws: seq<Walk>)
    requires StateOk(mc, st) && StateOk(mc, other) && AllStopped(ws) && |ws| == |mc.streams|
    requires st.pend == other.pend == Nothing(|mc.streams|)
    ensures Batch(st, ws) == Batch(other, ws)
  {
  }

  /** The walks as the host keeps them end where the walks end. */
  lemma Forgotten(mc: Machine, st: State, ws: seq<Walk>)
    requires StateOk(mc, st) && |ws| == |mc.streams| && AllStopped(Walks(mc, st))
    requires forall L | 0 <= L < |ws| :: ws[L] == Forget(Walks(mc, st)[L])
    ensures SameEnds(mc, ws, Walks(mc, st))
  {
    hide WalkLane;
  }

  /** One turn of the event loop: walk, stage, and resolve the event; the memory is read only where
      the event needs it, behind a drain. */
  method HostRound(mc: Machine, d: Dispatcher, stacks: seq<seq<Frame>>, known0: Mem, rounds0: seq<nat>, round: nat,
                   steps: nat, m0: Mem, ghost st: State)
    returns (turn: HostTurn, known: Mem, rounds: seq<nat>)
    requires PickOk(mc) && mc.kind == HostDispatch && d.Valid()
    requires Follows(mc, d.program, rounds0, st, m0) && stacks == st.stacks && RoundSliced(mc, st)
    modifies d
    ensures d.Valid() && TurnFollows(mc, Round(mc, st, round), turn, d.program, d.ran, rounds, m0)
  {
    hide PickOk, Memory, RunBatch, BatchOk, AllResolve, Resolved, SomeEntry, Walks, Looks, Forget, SegmentOf, Batch,
        SameToken, Positions, AllRuns, StackOk;
    known, rounds := known0, rounds0;
    var now := State(stacks, Nothing(|mc.streams|), known, 0);
    var ws, table := AdvanceTable(mc, now);
    ghost var walks := Walks(mc, now);
    WalksBlind(mc, now, st);
    SameBatch(mc, now, st, walks);
    TableHolds(mc, st, table);
    Forgotten(mc, now, ws);
    if !BatchOk(mc, Positions(table)) {
      return HostFault, known, rounds;
    }
    rounds := Stage(mc, d, table, rounds, round, m0);
    Progresses(d, steps);
    ghost var m := Memory(mc, d.program, rounds, m0);
    SameResolve(mc, ws, walks, Finished, m);
    if SameToken(ws, Finished) {
      d.FlushGroup(true);
      return HostStop, known, rounds;
    }
    NotAllFinished(ws);
    SameResolve(mc, ws, walks, ws[0].token, m);
    if !SameToken(ws, ws[0].token) {
      return HostFault, known, rounds;
    }
    turn, known := ResolveEvent(mc, d, ws, ws[0].token, known, rounds, m0);
  }

  lemma NotAllFinished(ws: seq<Walk>)
    requires AllStopped(ws) && !SameToken(ws, Finished)
    ensures ws != []
  {
  }

  /** Resolves an event, after a look at the memory if it needs one. */
  method ResolveEvent(mc: Machine, d: Dispatcher, ws: seq<Walk>, token: Token, known0: Mem, rounds: seq<nat>, m0: Mem)
    returns (turn: HostTurn, known: Mem)
    requires PickOk(mc) && d.Valid() && |rounds| == |d.program|
    requires AllStopped(ws) && |ws| == |mc.streams| && forall L | 0 <= L < |ws| :: StackOk(ws[L].stack)
    modifies d
    ensures d.Valid() && d.program == old(d.program)
    ensures var m := Memory(mc, d.program, rounds, m0);
            turn == if AllResolve(mc, ws, token, m) then HostNext(Resolved(mc, ws, token, m)) else HostFault
  {
    hide PickOk, Memory, AllResolve, Resolved, StackOk;
    known := known0;
    if Looks(token) {
      d.ReadFlag();
      known := Memory(mc, d.ran, rounds, m0);
    } else {
      ResolveBlind(mc, ws, token, known, Memory(mc, d.program, rounds, m0));
    }
    if !AllResolve(mc, ws, token, known) {
      return HostFault, known;
    }
    var after := ResolveAll(mc, ws, token, known);
    turn := HostNext(after);
  }

  /** The event loop over the asynchronous queue. `progress` says how far the device gets in each
      round; the memory is known only after a drain. Whatever the progress, the answer is that of
      the engine that runs every batch at once, and the kernels have run on the tables of the
      launched batches, in order. */
  method HostLoop(mc: Machine, s: Schedule, m0: Mem, bound: nat, progress: nat -> nat, blank: Table)
    returns (answer: Answer, ran: seq<Work>, rounds: seq<nat>)
    requires PickOk(mc) && mc.kind == HostDispatch && |s.rootLens| == |mc.streams|
    requires StateOk(mc, Initial(s, m0)) && Segmented(mc, Initial(s, m0), bound)
    ensures answer == Rounds(mc, Initial(s, m0), bound)
    ensures answer.Halted? ==> |ran| == |rounds| == answer.launched && Memory(mc, ran, rounds, m0) == answer.mem
  {
    hide PickOk, StateOk, Memory, RunBatch, Round, RoundSliced;
    var d := new Dispatcher(blank);
    var stacks, known, left := Initial(s, m0).stacks, m0, bound;
    ghost var st := Initial(s, m0);
    rounds := [];
    StartFollows(mc, s, m0);
    while left > 0
      invariant d.Valid() && fresh(d) && Follows(mc, d.program, rounds, st, m0) && stacks == st.stacks
      invariant Rounds(mc, Initial(s, m0), bound) == Rounds(mc, st, left) && Segmented(mc, st, left)
      decreases left
    {
      var turn;
      turn, known, rounds := HostRound(mc, d, stacks, known, rounds, left, progress(left), m0, st);
      match turn {
        case HostStop =>
          return Halted(Memory(mc, d.ran, rounds, m0), |d.ran|), d.ran, rounds;
        case HostFault =>
          return Crashed, d.ran, rounds;
        case HostNext(after) =>
          stacks := after;
          st := Round(mc, st, left).st;
      }
      left := left - 1;
    }
    return Running, d.ran, rounds;
  }

  /** Compiling a program and running it on the host engine. */
  method CompileAndDispatch(p: Program, n: pos, dev: Device, pick: (nat, seq<seq<Step>>) -> seq<nat>,
                            progress: nat -> nat, bound: nat, m: Mem)
    returns (answer: Answer, ran: seq<Work>, rounds: seq<nat>)
    requires |p.instrs| < TASK_FOR && Nested(p, (0, p.mainLen), 0) && dev.walker == HostDispatch
    requires KernelsOk(p, dev) && ViewsSafe(p)
    requires forall k, lanes :: ValidSched(lanes, pick(k, lanes))
    ensures answer == Crashed ==> Execute(p, dev, bound, m) == Failed
    ensures answer.Halted? ==>
        && Execute(p, dev, bound, m) in {Done(answer.mem), Truncated(answer.mem)}
        && |ran| == answer.launched == PhasesRun(p, dev, bound, m)
    ensures Fits(p, (0, p.mainLen), 0) ==> answer != Crashed
    ensures Fits(p, (0, p.mainLen), 0) && answer.Halted? ==>
        && Execute(p, Unlimited(dev), bound, m) == Done(answer.mem)
        && |ran| == answer.launched == PhasesRun(p, Unlimited(dev), bound, m)
  {
    hide Execute, PhasesRun, Rounds, Segmented, KernelsOk, ViewsSafe, Nested, Fits, Matches, Built, Memory, StateOk;
    var s;
    ghost var owner, blocks, jobs;
    s, owner, blocks, jobs := ScheduleProgram(p, n);
    var mc := Machine(HostDispatch, dev, s.tasks, s.laneStreams, pick);
    assert PickOk(mc) by {
      assert forall k, lanes {:trigger Answers(mc, k, lanes)} :: Answers(mc, k, lanes);
    }
    EngineIsReference(p, n, dev, s, owner, blocks, jobs, pick, bound, m);
    if Fits(p, (0, p.mainLen), 0) {
      ScheduleIsReference(p, n, dev, s, owner, blocks, jobs, pick, bound, m);
    }
    StreamsMatch(p, n, s, owner, blocks, jobs);
    answer, ran, rounds := HostLoop(mc, s, m, bound, progress, []);
  }
}
