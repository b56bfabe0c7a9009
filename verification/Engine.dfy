/** The frame-stack machines that run a schedule, the lane simulator and the host-dispatch engine:
    every lane walks its stream to the next global event, the tiles collected on the way run in
    any interleaving, and the event is resolved in all lanes at once. */
module Engine {
  import opened Isa
  import Arith
  import opened Interleave
  import opened Streams
  import opened OnePhase
  import opened Reference
  import opened Scheduler

  const ROOT := -1

  /** A position in a stream range. `widx` is the control entry that opened the range (ROOT for
      the whole stream); `phase` is 0 in a loop condition, 1 in a loop body, 2 in a branch, and
      the trip counter in a fixed-trip loop. */
  datatype Frame = Frame(pc: nat, end: nat, widx: int, phase: int)

  datatype Token = Finished | Bar | WhileCond | WhileBody | ForBody | Branch

  /** Why and where a lane stopped, and the positions of the entries that it walked over. */
  datatype Walk = Stopped(token: Token, stack: seq<Frame>, out: seq<nat>) | Bad

  /** Only the innermost range may be exhausted. */
  predicate StackOk(stack: seq<Frame>) {
    0 < |stack| <= MAX_DEPTH + 1 && forall i | 0 <= i < |stack| - 1 :: stack[i].pc < stack[i].end
  }

  function Top(stack: seq<Frame>): Frame requires stack != [] { stack[|stack| - 1] }
  function Below(stack: seq<Frame>): seq<Frame> requires stack != [] { stack[..|stack| - 1] }

  /** Steps the innermost range past its current entry. */
  function Bump(stack: seq<Frame>): (r: seq<Frame>)
    requires stack != []
    ensures r != []
  {
    Below(stack) + [Top(stack).(pc := Top(stack).pc + 1)]
  }

  // ----- why a walk ends --------------------------------------------------------------------

  /** At least as long as any range a control entry of the stream can open. */
  function Longest(stream: seq<Entry>): (r: nat)
    ensures forall x | 0 <= x < |stream| :: stream[x].tileHi <= r && stream[x].waitCount <= r
  {
    if stream == [] then 0
    else
      var k := |stream| - 1;
      var rest := Longest(stream[..k]);
      Max(rest, Max(stream[k].tileHi, stream[k].waitCount))
  }

  /** Steps for a range of `left` entries that may open ranges `depth` deep, each of at most
      `longest` entries. */
  function Cost(longest: nat, left: nat, depth: nat): nat
    decreases depth, 1
  {
    left * (1 + Cap(longest, depth)) + 1
  }

  function Cap(longest: nat, depth: nat): nat
    decreases depth, 0
  {
    if depth == 0 then 0 else Cost(longest, longest, depth - 1)
  }

  function Left(f: Frame): nat { if f.pc < f.end then f.end - f.pc else 0 }

  /** Steps left for a whole stack; an outer range resumes after the entry it is at. */
  function Steps(longest: nat, stack: seq<Frame>): nat
    requires 0 < |stack| <= MAX_DEPTH + 1
    decreases |stack|
  {
    Cost(longest, Left(Top(stack)), MAX_DEPTH + 1 - |stack|)
    + if |stack| == 1 then 0 else Steps(longest, Bump(Below(stack)))
  }

  lemma CostStep(longest: nat, left: nat, depth: nat)
    requires left > 0
    ensures Cost(longest, left, depth) == Cost(longest, left - 1, depth) + 1 + Cap(longest, depth)
  {
    var c := 1 + Cap(longest, depth);
    assert left * c == (left - 1) * c + c;
  }

  lemma CostMonotone(longest: nat, left: nat, more: nat, depth: nat)
    requires left <= more
    ensures Cost(longest, left, depth) <= Cost(longest, more, depth)
  {
    Arith.MulMonotone(left, more, 1 + Cap(longest, depth));
  }

  lemma StepsBump(longest: nat, stack: seq<Frame>)
    requires 0 < |stack| <= MAX_DEPTH + 1 && Top(stack).pc < Top(stack).end
    ensures Steps(longest, stack) == Steps(longest, Bump(stack)) + 1 + Cap(longest, MAX_DEPTH + 1 - |stack|)
  {
    assert Below(Bump(stack)) == Below(stack);
    CostStep(longest, Left(Top(stack)), MAX_DEPTH + 1 - |stack|);
  }

  lemma StepsPush(longest: nat, stack: seq<Frame>, f: Frame)
    requires 0 < |stack| <= MAX_DEPTH && Top(stack).pc < Top(stack).end && Left(f) <= longest
    ensures Steps(longest, stack + [f]) < Steps(longest, stack)
  {
    assert Below(stack + [f]) == stack;
    StepsBump(longest, stack);
    CostMonotone(longest, Left(f), longest, MAX_DEPTH - |stack|);
  }

  // ----- one lane ---------------------------------------------------------------------------

  /** One move of one lane: on to another stack, perhaps over a tile entry; or an event. */
  datatype Move = Go(stack: seq<Frame>, out: seq<nat>) | Event(token: Token) | Broken

  /** The branch that the flag of an If selects. */
  predicate Taken(e: Entry, m: Mem) { Get(m, Cell(e.signalFlag, 0)) != 0 }
  function BranchStart(e: Entry, m: Mem): nat { if Taken(e, m) then e.tileLo else e.waitFlag }
  function BranchLength(e: Entry, m: Mem): nat { if Taken(e, m) then e.tileHi else e.waitCount }

  /** Opens a range, unless too many are open already: the simulator reports that, the host
      engine takes the program for finished. */
  function Enter(kind: Walker, stack: seq<Frame>, start: nat, length: nat, phase: int): Move
    requires stack != []
  {
    if Room(kind, |stack|) then Go(stack + [Frame(start, start + length, Top(stack).pc, phase)], [])
    else if kind == HostDispatch then Event(Finished)
    else Broken
  }

  /** The innermost range is exhausted. */
  function Leave(stream: seq<Entry>, stack: seq<Frame>): Move
    requires stack != []
  {
    var f := Top(stack);
    if f.widx == ROOT then Event(Finished)
    else if f.widx < 0 || f.widx >= |stream| then Broken
    else if stream[f.widx].task == TASK_IF then if |stack| < 2 then Broken else Go(Bump(Below(stack)), [])
    else if stream[f.widx].task == TASK_FOR then Event(ForBody)
    else Event(if f.phase == 0 then WhileCond else WhileBody)
  }

  /** The entry that the innermost range is at. The simulator reads the flag of an If while it
      walks; the host engine makes it an event. */
  function Execute1(kind: Walker, e: Entry, stack: seq<Frame>, m: Mem): Move
    requires stack != []
  {
    if e.task == TASK_BARRIER then Event(Bar)
    else if e.task == TASK_WHILE then Enter(kind, stack, e.tileLo, e.tileHi, 0)
    else if e.task == TASK_FOR then
      if e.waitFlag == 0 then Go(Bump(stack), [])
      else Enter(kind, stack, e.tileLo, e.tileHi, Counter(kind, e.waitFlag))
    else if e.task == TASK_IF then
      if kind == HostDispatch then Event(Branch)
      else if BranchLength(e, m) == 0 then Go(Bump(stack), [])
          else Enter(kind, stack, BranchStart(e, m), BranchLength(e, m), 2)
    else Go(Bump(stack), if e.task == TASK_NOP then [] else [Top(stack).pc])
  }

  function MoveLane(kind: Walker, stream: seq<Entry>, stack: seq<Frame>, m: Mem): Move
    requires stack != []
  {
    var f := Top(stack);
    if f.pc >= f.end then Leave(stream, stack)
    else if f.pc >= |stream| then Broken
    else Execute1(kind, stream[f.pc], stack, m)
  }

  lemma PopShrinks(longest: nat, stack: seq<Frame>)
    requires 2 <= |stack| <= MAX_DEPTH + 1
    ensures Steps(longest, Bump(Below(stack))) < Steps(longest, stack)
  {
  }

  lemma ExecuteShrinks(kind: Walker, longest: nat, e: Entry, stack: seq<Frame>, m: Mem)
    requires StackOk(stack) && Top(stack).pc < Top(stack).end && Execute1(kind, e, stack, m).Go?
    requires e.tileHi <= longest && e.waitCount <= longest
    ensures Steps(longest, Execute1(kind, e, stack, m).stack) < Steps(longest, stack)
    ensures StackOk(Execute1(kind, e, stack, m).stack)
  {
    hide Steps, Cost, Cap, Taken;
    var next := Execute1(kind, e, stack, m).stack;
    if next == Bump(stack) {
      StepsBump(longest, stack);
    } else {
      StepsPush(longest, stack, next[|stack|]);
    }
  }

  lemma MoveShrinks(kind: Walker, stream: seq<Entry>, stack: seq<Frame>, m: Mem)
    requires StackOk(stack) && MoveLane(kind, stream, stack, m).Go?
    ensures StackOk(MoveLane(kind, stream, stack, m).stack)
    ensures Steps(Longest(stream), MoveLane(kind, stream, stack, m).stack) < Steps(Longest(stream), stack)
  {
    if Top(stack).pc < Top(stack).end {
      ExecuteShrinks(kind, Longest(stream), stream[Top(stack).pc], stack, m);
    } else {
      PopShrinks(Longest(stream), stack);
    }
  }

  function EmitAll(out: seq<nat>, w: Walk): Walk {
    if w.Stopped? then w.(out := out + w.out) else Bad
  }

  /** One lane, up to its next global event. */
  function WalkLane(kind: Walker, stream: seq<Entry>, stack: seq<Frame>, m: Mem): (w: Walk)
    requires StackOk(stack)
    ensures w.Stopped? ==> StackOk(w.stack)
    decreases Steps(Longest(stream), stack)
  {
    match MoveLane(kind, stream, stack, m)
    case Event(token) => Stopped(token, stack, [])
    case Broken => Bad
    case Go(next, out) =>
      MoveShrinks(kind, stream, stack, m);
      EmitAll(out, WalkLane(kind, stream, next, m))
  }

  lemma MoveWalks(kind: Walker, stream: seq<Entry>, stack: seq<Frame>, m: Mem)
    requires StackOk(stack) && MoveLane(kind, stream, stack, m).Go?
    ensures var move := MoveLane(kind, stream, stack, m);
            StackOk(move.stack)
                && WalkLane(kind, stream, stack, m) == EmitAll(move.out, WalkLane(kind, stream, move.stack, m))
  {
    MoveShrinks(kind, stream, stack, m);
  }

  lemma EmitTwice(a: seq<nat>, b: seq<nat>, w: Walk)
    ensures EmitAll(a, EmitAll(b, w)) == EmitAll(a + b, w)
  {
    if w.Stopped? {
      assert a + (b + w.out) == a + b + w.out;
    }
  }

  /** The walk of one lane as the machine performs it, frame by frame. */
  method AdvanceLane(kind: Walker, stream: seq<Entry>, stack0: seq<Frame>, m: Mem) returns (w: Walk)
    requires StackOk(stack0)
    ensures w == WalkLane(kind, stream, stack0, m)
  {
    var stack, batch := stack0, [];
    while true
      invariant StackOk(stack)
      invariant WalkLane(kind, stream, stack0, m) == EmitAll(batch, WalkLane(kind, stream, stack, m))
      decreases Steps(Longest(stream), stack)
    {
      match MoveLane(kind, stream, stack, m) {
        case Event(token) =>
          return Stopped(token, stack, batch);
        case Broken =>
          return Bad;
        case Go(next, out) =>
          MoveShrinks(kind, stream, stack, m);
          EmitTwice(batch, out, WalkLane(kind, stream, next, m));
          stack, batch := next, batch + out;
      }
    }
  }

  // ----- all lanes --------------------------------------------------------------------------

  /** `pick` chooses, for every round, the order in which the lanes' tiles run. */
  datatype Machine = Machine(kind: Walker, dev: Device, tasks: seq<Task>, streams: seq<seq<Entry>>,
      pick: (nat, seq<seq<Step>>) -> seq<nat>)

  /** Frame stacks, the positions of the entries walked over since the last event, and how many
      batches that held any entry have been launched. */
  datatype State = State(stacks: seq<seq<Frame>>, pend: seq<seq<nat>>, mem: Mem, launched: nat)

  datatype Answer = Halted(mem: Mem, launched: nat) | Running | Crashed

  /** Whatever the lanes hold, `pick` answers with an interleaving of them. */
  ghost predicate PickOk(mc: Machine) {
    forall k, lanes {:trigger Answers(mc, k, lanes)} :: Answers(mc, k, lanes)
  }

  predicate Answers(mc: Machine, round: nat, lanes: seq<seq<Step>>) {
    ValidSched(lanes, mc.pick(round, lanes))
  }

  ghost predicate StateOk(mc: Machine, st: State) {
    && |st.stacks| == |st.pend| == |mc.streams|
    && forall L | 0 <= L < |st.stacks| :: StackOk(st.stacks[L])
  }

  function Ids(n: nat): (r: seq<nat>)
    ensures |r| == n && forall x | 0 <= x < n :: r[x] == x
  {
    seq(n, x requires 0 <= x < n => x)
  }

  predicate Within(stream: seq<Entry>, pcs: seq<nat>) {
    forall x | 0 <= x < |pcs| :: pcs[x] < |stream|
  }

  /** The entries at some positions of a stream. */
  function Fetch(stream: seq<Entry>, pcs: seq<nat>): (es: seq<Entry>)
    requires Within(stream, pcs)
    ensures |es| == |pcs| && forall x | 0 <= x < |es| :: es[x] == stream[pcs[x]]
  {
    seq(|pcs|, x requires 0 <= x < |pcs| => stream[pcs[x]])
  }

  predicate BatchOk(mc: Machine, batch: seq<seq<nat>>) {
    && |batch| == |mc.streams|
    && forall L | 0 <= L < |batch| ::
         Within(mc.streams[L], batch[L]) && EntriesOk(Ids(|mc.tasks|), Fetch(mc.streams[L], batch[L]))
  }

  /** The tiles of a batch; a step names its task here, not its instruction. */
  function BatchSteps(mc: Machine, batch: seq<seq<nat>>): (lanes: seq<seq<Step>>)
    requires BatchOk(mc, batch)
    ensures |lanes| == |batch|
    ensures forall L | 0 <= L < |lanes| :: lanes[L] == EntrySteps(Ids(|mc.tasks|), Fetch(mc.streams[L], batch[L]))
  {
    seq(|batch|, L requires 0 <= L < |batch| => EntrySteps(Ids(|mc.tasks|), Fetch(mc.streams[L], batch[L])))
  }

  function TaskAct(mc: Machine): (Step, Mem) -> Mem {
    (s: Step, m: Mem) => if s.instr < |mc.tasks| then m + mc.dev.kern(mc.tasks[s.instr], s.tile, m) else m
  }

  function RunBatch(mc: Machine, batch: seq<seq<nat>>, round: nat, m: Mem): Mem
    requires PickOk(mc) && BatchOk(mc, batch)
  {
    var lanes := BatchSteps(mc, batch);
    assert Answers(mc, round, lanes);
    Run(TaskAct(mc), Weave(lanes, mc.pick(round, lanes)), m)
  }

  function Walks(mc: Machine, st: State): (ws: seq<Walk>)
    requires StateOk(mc, st)
    ensures |ws| == |st.stacks|
    ensures forall L | 0 <= L < |ws| :: ws[L] == WalkLane(mc.kind, mc.streams[L], st.stacks[L], st.mem)
  {
    seq(|st.stacks|, L requires 0 <= L < |st.stacks| => WalkLane(mc.kind, mc.streams[L], st.stacks[L], st.mem))
  }

  predicate AllStopped(ws: seq<Walk>) {
    forall L | 0 <= L < |ws| :: ws[L].Stopped?
  }

  predicate SameToken(ws: seq<Walk>, token: Token)
    requires AllStopped(ws)
  {
    forall L | 0 <= L < |ws| :: ws[L].token == token
  }

  function Batch(st: State, ws: seq<Walk>): (batch: seq<seq<nat>>)
    requires AllStopped(ws) && |ws| == |st.pend|
    ensures |batch| == |ws| && forall L | 0 <= L < |ws| :: batch[L] == st.pend[L] + ws[L].out
  {
    seq(|ws|, L requires 0 <= L < |ws| => st.pend[L] + ws[L].out)
  }

  /** Whether one lane can take its side of the event, in the memory after the batch. */
  predicate CanResolve(stream: seq<Entry>, stack: seq<Frame>, token: Token, m: Mem)
    requires StackOk(stack)
  {
    match token
    case Finished => false
    case Bar => Top(stack).pc < Top(stack).end
    case Branch =>
      && Top(stack).pc < Top(stack).end && Top(stack).pc < |stream|
      && (BranchLength(stream[Top(stack).pc], m) > 0 ==> Room(HostDispatch, |stack|))
    case _ => |stack| >= 2 && 0 <= Top(stack).widx < |stream|
  }

  function Replace(stack: seq<Frame>, f: Frame): seq<Frame>
    requires stack != []
  {
    Below(stack) + [f]
  }

  /** One lane's side of the event, after the batch has run. */
  function Resolve(stream: seq<Entry>, stack: seq<Frame>, token: Token, m: Mem): (r: seq<Frame>)
    requires StackOk(stack) && CanResolve(stream, stack, token, m)
    ensures StackOk(r)
  {
    var f := Top(stack);
    if token == Bar then Bump(stack)
    else if token == Branch then
      var e := stream[f.pc];
      if BranchLength(e, m) == 0 then Bump(stack)
      else stack + [Frame(BranchStart(e, m), BranchStart(e, m) + BranchLength(e, m), f.pc, 2)]
    else
      var w := stream[f.widx];
      if token == WhileCond then
        if Get(m, Cell(w.signalFlag, 0)) != 0
            then Replace(stack, f.(pc := w.waitFlag, end := w.waitFlag + w.waitCount, phase := 1))
        else Bump(Below(stack))
      else if token == ForBody then
        if f.phase > 1 then Replace(stack, f.(pc := w.tileLo, end := w.tileLo + w.tileHi, phase := f.phase - 1))
        else Bump(Below(stack))
      else Replace(stack, f.(pc := w.tileLo, end := w.tileLo + w.tileHi, phase := 0))
  }

  predicate AllResolve(mc: Machine, ws: seq<Walk>, token: Token, m: Mem)
    requires AllStopped(ws) && |ws| == |mc.streams| && forall L | 0 <= L < |ws| :: StackOk(ws[L].stack)
  {
    forall L | 0 <= L < |ws| :: CanResolve(mc.streams[L], ws[L].stack, token, m)
  }

  function Resolved(mc: Machine, ws: seq<Walk>, token: Token, m: Mem): (stacks: seq<seq<Frame>>)
    requires AllStopped(ws) && |ws| == |mc.streams| && forall L | 0 <= L < |ws| :: StackOk(ws[L].stack)
    requires AllResolve(mc, ws, token, m)
    ensures |stacks| == |ws| && forall L | 0 <= L < |ws| :: StackOk(stacks[L])
    ensures forall L | 0 <= L < |ws| :: stacks[L] == Resolve(mc.streams[L], ws[L].stack, token, m)
  {
    seq(|ws|, L requires 0 <= L < |ws| => Resolve(mc.streams[L], ws[L].stack, token, m))
  }

  function Nothing(n: nat): (pend: seq<seq<nat>>)
    ensures |pend| == n && forall L | 0 <= L < n :: pend[L] == []
  {
    seq(n, L requires 0 <= L < n => [])
  }

  /** A batch without any entry is not launched. */
  function Launched(st: State, batch: seq<seq<nat>>): nat {
    st.launched + if SomeEntry(batch) then 1 else 0
  }

  /** What one round does. */
  datatype Turn = Stop(mem: Mem, launched: nat) | Next(st: State) | Fault

  function Round(mc: Machine, st: State, round: nat): (t: Turn)
    requires PickOk(mc) && StateOk(mc, st)
    ensures t.Next? ==> StateOk(mc, t.st)
  {
    var ws := Walks(mc, st);
    if !AllStopped(ws) || !BatchOk(mc, Batch(st, ws)) then Fault
    else
      var m, launched := RunBatch(mc, Batch(st, ws), round, st.mem), Launched(st, Batch(st, ws));
      if SameToken(ws, Finished) then Stop(m, launched)
      else if !SameToken(ws, ws[0].token) || !AllResolve(mc, ws, ws[0].token, m) then Fault
      else Next(State(Resolved(mc, ws, ws[0].token, m), Nothing(|ws|), m, launched))
  }

  /** At most `left` rounds. */
  function Rounds(mc: Machine, st: State, left: nat): Answer
    requires PickOk(mc) && StateOk(mc, st)
    decreases left
  {
    if left == 0 then Running
    else
      match Round(mc, st, left)
      case Stop(m, launched) => Halted(m, launched)
      case Next(st') => Rounds(mc, st', left - 1)
      case Fault => Crashed
  }

  function Initial(s: Schedule, m: Mem): State {
    State(seq(|s.rootLens|, L requires 0 <= L < |s.rootLens| => [Frame(0, s.rootLens[L], ROOT, 0)]),
        Nothing(|s.rootLens|), m, 0)
  }

  method AdvanceAll(mc: Machine, st: State) returns (ws: seq<Walk>)
    requires StateOk(mc, st)
    ensures ws == Walks(mc, st)
  {
    ws := [];
    var lane := 0;
    while lane < |st.stacks|
      invariant 0 <= lane <= |st.stacks| && |ws| == lane
      invariant forall L | 0 <= L < lane :: ws[L] == WalkLane(mc.kind, mc.streams[L], st.stacks[L], st.mem)
    {
      var w := AdvanceLane(mc.kind, mc.streams[lane], st.stacks[lane], st.mem);
      ws := ws + [w];
      lane := lane + 1;
    }
  }

  method ResolveAll(mc: Machine, ws: seq<Walk>, token: Token, m: Mem) returns (stacks: seq<seq<Frame>>)
    requires AllStopped(ws) && |ws| == |mc.streams| && forall L | 0 <= L < |ws| :: StackOk(ws[L].stack)
    requires AllResolve(mc, ws, token, m)
    ensures stacks == Resolved(mc, ws, token, m)
  {
    stacks := [];
    var lane := 0;
    while lane < |ws|
      invariant 0 <= lane <= |ws| && |stacks| == lane
      invariant forall L | 0 <= L < lane :: stacks[L] == Resolve(mc.streams[L], ws[L].stack, token, m)
    {
      stacks := stacks + [Resolve(mc.streams[lane], ws[lane].stack, token, m)];
      lane := lane + 1;
    }
  }

  /** One round: walk, run the batch, resolve. Lanes that disagree on the event are an error. */
  method RunRound(mc: Machine, st: State, round: nat) returns (t: Turn)
    requires PickOk(mc) && StateOk(mc, st)
    ensures t == Round(mc, st, round)
  {
    var ws := AdvanceAll(mc, st);
    if exists L | 0 <= L < |ws| :: ws[L].Bad? {
      return Fault;
    }
    var batch := Batch(st, ws);
    if !BatchOk(mc, batch) {
      return Fault;
    }
    if !SameToken(ws, Finished) && !SameToken(ws, ws[0].token) {
      return Fault;
    }
    var m, launched := RunBatch(mc, batch, round, st.mem), Launched(st, batch);
    if SameToken(ws, Finished) {
      return Stop(m, launched);
    }
    if !AllResolve(mc, ws, ws[0].token, m) {
      return Fault;
    }
    var stacks := ResolveAll(mc, ws, ws[0].token, m);
    t := Next(State(stacks, Nothing(|ws|), m, launched));
  }

  lemma RoundsNext(mc: Machine, st: State, next: State, left: nat)
    requires PickOk(mc) && StateOk(mc, st) && left > 0 && Round(mc, st, left) == Next(next)
    ensures StateOk(mc, next) && Rounds(mc, st, left) == Rounds(mc, next, left - 1)
  {
  }

  method RunFrom(mc: Machine, st0: State, rounds: nat) returns (r: Answer)
    requires PickOk(mc) && StateOk(mc, st0)
    ensures r == Rounds(mc, st0, rounds)
  {
    hide Round;
    var st, left := st0, rounds;
    while left > 0
      invariant 0 <= left <= rounds && StateOk(mc, st)
      invariant Rounds(mc, st0, rounds) == Rounds(mc, st, left)
    {
      var t := RunRound(mc, st, left);
      match t {
        case Stop(m, launched) => return Halted(m, launched);
        case Fault => return Crashed;
        case Next(next) =>
          RoundsNext(mc, st, next, left);
          st, left := next, left - 1;
      }
    }
    r := Running;
  }

  /** Runs a schedule for a number of rounds. */
  method RunControl(mc: Machine, s: Schedule, m0: Mem, rounds: nat) returns (r: Answer)
    requires PickOk(mc) && mc.streams == s.laneStreams && |s.rootLens| == |s.laneStreams|
    ensures r == Rounds(mc, Initial(s, m0), rounds)
  {
    r := RunFrom(mc, Initial(s, m0), rounds);
  }
}
