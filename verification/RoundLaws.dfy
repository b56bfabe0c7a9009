/** How runs of the frame-stack machine compose: walking on without an event changes nothing,
    and a uniform event takes exactly one round. */
module RoundLaws {
  import opened Isa
  import opened Interleave
  import opened Streams
  import opened OnePhase
  import opened Engine

  // ----- one contiguous run of entries per lane and round --------------------------------------

  /** The positions from `lo` on, `n` of them. */
  function Upto(lo: nat, n: nat): (pcs: seq<nat>)
    ensures |pcs| == n && forall x | 0 <= x < n :: pcs[x] == lo + x
  {
    seq(n, x requires 0 <= x < n => lo + x)
  }

  /** One position after the other. */
  predicate IsRun(pcs: seq<nat>) {
    forall x | 0 <= x < |pcs| :: pcs[x] == pcs[0] + x
  }

  predicate AllRuns(batch: seq<seq<nat>>) {
    forall L {:trigger IsRun(batch[L])} | 0 <= L < |batch| :: IsRun(batch[L])
  }

  ghost predicate RoundSliced(mc: Machine, st: State)
    requires StateOk(mc, st)
  {
    AllStopped(Walks(mc, st)) && AllRuns(Batch(st, Walks(mc, st)))
  }

  /** In each of the next `left` rounds every lane collects one contiguous run of its stream. */
  ghost predicate Segmented(mc: Machine, st: State, left: nat)
    requires PickOk(mc) && StateOk(mc, st)
    decreases left
  {
    left > 0 ==>
      && RoundSliced(mc, st)
      && (Round(mc, st, left).Next? ==> Segmented(mc, Round(mc, st, left).st, left - 1))
  }

  // ----- runs -------------------------------------------------------------------------------------

  /** From `a` the machine is in `b` after `k` rounds, and still running before that; and the
      rounds up to there are segmented. */
  ghost predicate Leads(mc: Machine, a: State, b: State, k: nat)
    requires PickOk(mc)
  {
    && StateOk(mc, a) && StateOk(mc, b)
    && (forall left: nat {:trigger Rounds(mc, b, left)} :: Rounds(mc, a, left + k) == Rounds(mc, b, left))
    && (forall left: nat {:trigger Segmented(mc, b, left)} | Segmented(mc, b, left) :: Segmented(mc, a, left + k))
    && RunsBelow(mc, a, k)
  }

  ghost predicate RunsBelow(mc: Machine, a: State, k: nat)
    requires PickOk(mc) && StateOk(mc, a)
  {
    forall left: nat {:trigger Rounds(mc, a, left)} {:trigger Segmented(mc, a, left)} | left < k ::
      Rounds(mc, a, left) == Running && Segmented(mc, a, left)
  }

  /** From `a` the machine is still running after `k` rounds. */
  ghost predicate RunsFor(mc: Machine, a: State, k: nat)
    requires PickOk(mc)
  {
    StateOk(mc, a) && RunsBelow(mc, a, k + 1)
  }

  lemma LeadsBefore(mc: Machine, a: State, b: State, k: nat, left: nat)
    requires PickOk(mc) && Leads(mc, a, b, k) && left < k
    ensures StateOk(mc, a) && Rounds(mc, a, left) == Running && Segmented(mc, a, left)
  {
    hide Rounds, Segmented;
    assert RunsBelow(mc, a, k);
    hide Leads;
    assert Rounds(mc, a, left) == Running;
  }

  lemma LeadsLater(mc: Machine, a: State, b: State, k: nat, left: nat)
    requires PickOk(mc) && Leads(mc, a, b, k)
    ensures StateOk(mc, a) && StateOk(mc, b)
    ensures Rounds(mc, a, left + k) == Rounds(mc, b, left)
    ensures Segmented(mc, b, left) ==> Segmented(mc, a, left + k)
  {
    hide Rounds, Segmented;
  }

  lemma RunsStill(mc: Machine, a: State, b: State, j: nat, k: nat, left: nat)
    requires PickOk(mc) && Leads(mc, a, b, j) && RunsBelow(mc, b, k) && left < j + k
    ensures Rounds(mc, a, left) == Running && Segmented(mc, a, left)
  {
    hide Rounds, Segmented;
    if left >= j {
      assert Rounds(mc, a, left - j + j) == Rounds(mc, b, left - j);
      assert Segmented(mc, b, left - j);
      assert left - j + j == left;
    } else {
      assert Rounds(mc, a, left) == Running;
    }
  }

  lemma LeadsTrans(mc: Machine, a: State, b: State, c: State, j: nat, k: nat)
    requires PickOk(mc) && Leads(mc, a, b, j) && Leads(mc, b, c, k)
    ensures Leads(mc, a, c, j + k)
  {
    hide Rounds, Segmented;
    forall left: nat
      ensures Rounds(mc, a, left + (j + k)) == Rounds(mc, c, left)
    {
      assert Rounds(mc, a, left + k + j) == Rounds(mc, b, left + k);
    }
    forall left: nat | Segmented(mc, c, left)
      ensures Segmented(mc, a, left + (j + k))
    {
      assert Segmented(mc, b, left + k) && left + k + j == left + (j + k);
    }
    forall left: nat | left < j + k
      ensures Rounds(mc, a, left) == Running && Segmented(mc, a, left)
    {
      RunsStill(mc, a, b, j, k, left);
    }
  }

  lemma LeadsRuns(mc: Machine, a: State, b: State, j: nat, k: nat)
    requires PickOk(mc) && Leads(mc, a, b, j) && RunsFor(mc, b, k)
    ensures RunsFor(mc, a, j + k)
  {
    hide Rounds, Segmented;
    forall left: nat | left < j + k + 1
      ensures Rounds(mc, a, left) == Running && Segmented(mc, a, left)
    {
      RunsStill(mc, a, b, j, k + 1, left);
    }
  }

  lemma RunsLess(mc: Machine, a: State, j: nat, k: nat)
    requires PickOk(mc) && RunsFor(mc, a, k) && j <= k
    ensures RunsFor(mc, a, j)
  {
  }

  lemma NoRounds(mc: Machine, a: State)
    requires PickOk(mc) && StateOk(mc, a)
    ensures RunsFor(mc, a, 0)
  {
  }

  /** The batch collected so far is one contiguous run per lane and would turn the memory into
      `m`, in any interleaving. */
  ghost predicate Settled(mc: Machine, st: State, m: Mem)
    requires PickOk(mc)
  {
    BatchOk(mc, st.pend) && AllRuns(st.pend) && forall k {:trigger RunBatch(mc, st.pend, k, st.mem)} ::
        RunBatch(mc, st.pend, k, st.mem) == m
  }

  lemma StepOnce(mc: Machine, a: State, b: State)
    requires PickOk(mc) && StateOk(mc, a) && StateOk(mc, b) && RoundSliced(mc, a)
    requires forall left: nat {:trigger Round(mc, a, left)} | left > 0 :: Round(mc, a, left) == Next(b)
    ensures Leads(mc, a, b, 1)
  {
    hide Round, RoundSliced;
    forall left: nat
      ensures Rounds(mc, a, left + 1) == Rounds(mc, b, left)
      ensures Segmented(mc, b, left) ==> Segmented(mc, a, left + 1)
    {
      assert Round(mc, a, left + 1) == Next(b);
    }
  }

  /** When the turns agree, so do the runs. */
  lemma SameRounds(mc: Machine, a: State, b: State)
    requires PickOk(mc) && StateOk(mc, a) && StateOk(mc, b) && (RoundSliced(mc, a) <==> RoundSliced(mc, b))
    requires forall left: nat {:trigger Round(mc, a, left)} :: Round(mc, a, left) == Round(mc, b, left)
    ensures Leads(mc, a, b, 0)
  {
    hide Round, RoundSliced;
    forall left: nat
      ensures Rounds(mc, a, left + 0) == Rounds(mc, b, left)
      ensures Segmented(mc, b, left) ==> Segmented(mc, a, left + 0)
    {
      assert left > 0 ==> Round(mc, a, left) == Round(mc, b, left);
    }
  }

  // ----- runs that end ------------------------------------------------------------------------------

  /** From `a` the machine halts after `r` rounds, and all its rounds are segmented. */
  ghost predicate HaltsAt(mc: Machine, a: State, r: nat, m: Mem, launched: nat)
    requires PickOk(mc)
  {
    StateOk(mc, a) && forall left: nat {:trigger Rounds(mc, a, left)} {:trigger Segmented(mc, a, left)} ::
      && Rounds(mc, a, left) == (if left < r then Running else Halted(m, launched))
      && Segmented(mc, a, left)
  }

  /** The same with an error at the end. */
  ghost predicate CrashesAt(mc: Machine, a: State, r: nat)
    requires PickOk(mc)
  {
    StateOk(mc, a) && forall left: nat {:trigger Rounds(mc, a, left)} {:trigger Segmented(mc, a, left)} ::
      && Rounds(mc, a, left) == (if left < r then Running else Crashed)
      && Segmented(mc, a, left)
  }

  lemma HaltsVia(mc: Machine, a: State, b: State, j: nat, r: nat, m: Mem, launched: nat)
    requires PickOk(mc) && Leads(mc, a, b, j) && HaltsAt(mc, b, r, m, launched)
    ensures HaltsAt(mc, a, j + r, m, launched)
  {
    hide Leads, Rounds, StateOk, Segmented;
    LeadsLater(mc, a, b, j, 0);
    forall left: nat
      ensures StateOk(mc, a) && Rounds(mc, a, left) == (if left < j + r then Running else Halted(m, launched))
      ensures Segmented(mc, a, left)
    {
      if left < j {
        LeadsBefore(mc, a, b, j, left);
      } else {
        LeadsLater(mc, a, b, j, left - j);
        assert Rounds(mc, b, left - j) == (if left - j < r then Running else Halted(m, launched));
      }
    }
  }

  lemma CrashesVia(mc: Machine, a: State, b: State, j: nat, r: nat)
    requires PickOk(mc) && Leads(mc, a, b, j) && CrashesAt(mc, b, r)
    ensures CrashesAt(mc, a, j + r)
  {
    hide Leads, Rounds, StateOk, Segmented;
    LeadsLater(mc, a, b, j, 0);
    forall left: nat
      ensures StateOk(mc, a) && Rounds(mc, a, left) == (if left < j + r then Running else Crashed)
      ensures Segmented(mc, a, left)
    {
      if left < j {
        LeadsBefore(mc, a, b, j, left);
      } else {
        LeadsLater(mc, a, b, j, left - j);
        assert Rounds(mc, b, left - j) == (if left - j < r then Running else Crashed);
      }
    }
  }

  // ----- sliding along the lanes without an event -------------------------------------------

  /** Lane by lane, `b` is further along the same walk, with the entries on the way collected. */
  ghost predicate Slides(mc: Machine, a: State, b: State) {
    && StateOk(mc, a) && StateOk(mc, b) && a.mem == b.mem && a.launched == b.launched
    && forall L {:trigger LaneSlides(mc, a, b, L)} | 0 <= L < |mc.streams| :: LaneSlides(mc, a, b, L)
  }

  ghost predicate LaneSlides(mc: Machine, a: State, b: State, L: nat)
    requires StateOk(mc, a) && StateOk(mc, b) && L < |mc.streams|
  {
    exists out :: WalksVia(mc, a, b, L, out)
  }

  predicate WalksVia(mc: Machine, a: State, b: State, L: nat, out: seq<nat>)
    requires StateOk(mc, a) && StateOk(mc, b) && L < |mc.streams|
  {
    && WalkLane(mc.kind, mc.streams[L], a.stacks[L], a.mem)
      == EmitAll(out, WalkLane(mc.kind, mc.streams[L], b.stacks[L], a.mem))
    && b.pend[L] == a.pend[L] + out
  }

  lemma SlideWalks(mc: Machine, a: State, b: State)
    requires Slides(mc, a, b)
    ensures var v, w := Walks(mc, a), Walks(mc, b);
            && (AllStopped(v) <==> AllStopped(w))
            && (AllStopped(v) ==>
                 && Batch(a, v) == Batch(b, w)
                 && forall L | 0 <= L < |v| :: v[L].token == w[L].token && v[L].stack == w[L].stack)
  {
    hide WalkLane;
    var v, w := Walks(mc, a), Walks(mc, b);
    forall L | 0 <= L < |v|
      ensures v[L].Stopped? <==> w[L].Stopped?
      ensures v[L].Stopped? ==>
          v[L].token == w[L].token && v[L].stack == w[L].stack && a.pend[L] + v[L].out == b.pend[L] + w[L].out
    {
      assert LaneSlides(mc, a, b, L);
      var out :| WalksVia(mc, a, b, L, out);
      if w[L].Stopped? {
        assert a.pend[L] + (out + w[L].out) == a.pend[L] + out + w[L].out;
      }
    }
  }

  /** Walks that end at the same event with the same stacks. */
  predicate SameEnds(mc: Machine, v: seq<Walk>, w: seq<Walk>) {
    && |v| == |w| == |mc.streams| && AllStopped(v) && AllStopped(w)
    && forall L | 0 <= L < |v| :: v[L].token == w[L].token && v[L].stack == w[L].stack && StackOk(v[L].stack)
  }

  lemma SameResolve(mc: Machine, v: seq<Walk>, w: seq<Walk>, token: Token, m: Mem)
    requires SameEnds(mc, v, w)
    ensures SameToken(v, token) <==> SameToken(w, token)
    ensures AllResolve(mc, v, token, m) <==> AllResolve(mc, w, token, m)
    ensures AllResolve(mc, v, token, m) ==> Resolved(mc, v, token, m) == Resolved(mc, w, token, m)
  {
    hide CanResolve, Resolve, StackOk;
    assert AllResolve(mc, v, token, m) <==> AllResolve(mc, w, token, m);
    if AllResolve(mc, v, token, m) {
      assert Resolved(mc, v, token, m) == Resolved(mc, w, token, m);
    }
  }

  lemma SlideTurn(mc: Machine, a: State, b: State, round: nat)
    requires PickOk(mc) && Slides(mc, a, b)
    ensures Round(mc, a, round) == Round(mc, b, round)
  {
    hide PickOk, Batch, SameToken, Resolved, Resolve, RunBatch, BatchOk, SomeEntry;
    assert StateOk(mc, a) && StateOk(mc, b) && a.mem == b.mem && a.launched == b.launched;
    SlideWalks(mc, a, b);
    var v, w := Walks(mc, a), Walks(mc, b);
    if AllStopped(v) {
      var m := RunBatchOr(mc, Batch(a, v), round, a.mem);
      SameResolve(mc, v, w, Finished, m);
      if |v| > 0 {
        SameResolve(mc, v, w, v[0].token, m);
      }
    }
    hide Walks, Batch, Resolve, RunBatch, Slides, CanResolve, AllResolve, SameToken, Resolved, StackOk, BatchOk,
        SomeEntry;
  }

  function RunBatchOr(mc: Machine, batch: seq<seq<nat>>, round: nat, m: Mem): Mem
    requires PickOk(mc)
  {
    if BatchOk(mc, batch) then RunBatch(mc, batch, round, m) else m
  }

  lemma Slide(mc: Machine, a: State, b: State)
    requires PickOk(mc) && Slides(mc, a, b)
    ensures Leads(mc, a, b, 0)
  {
    assert StateOk(mc, a) && StateOk(mc, b);
    assert RoundSliced(mc, a) <==> RoundSliced(mc, b) by {
      hide Walks, Batch, AllRuns;
      SlideWalks(mc, a, b);
    }
    hide Slides, Round, RoundSliced;
    forall left: nat
      ensures Round(mc, a, left) == Round(mc, b, left)
    {
      SlideTurn(mc, a, b, left);
    }
    SameRounds(mc, a, b);
  }

  // ----- uniform events -------------------------------------------------------------------------

  /** Every lane is at the event `token`. */
  ghost predicate AtEvent(mc: Machine, st: State, token: Token)
    requires StateOk(mc, st)
  {
    forall L {:trigger LaneAtEvent(mc, st, token, L)} | 0 <= L < |mc.streams| :: LaneAtEvent(mc, st, token, L)
  }

  predicate LaneAtEvent(mc: Machine, st: State, token: Token, L: nat)
    requires StateOk(mc, st) && L < |mc.streams|
  {
    MoveLane(mc.kind, mc.streams[L], st.stacks[L], st.mem) == Event(token)
  }

  lemma EventWalks(mc: Machine, st: State, token: Token)
    requires StateOk(mc, st) && AtEvent(mc, st, token)
    ensures var ws := Walks(mc, st);
            && AllStopped(ws) && SameToken(ws, token) && Batch(st, ws) == st.pend
            && forall L | 0 <= L < |ws| :: ws[L].stack == st.stacks[L]
  {
    var ws := Walks(mc, st);
    forall L | 0 <= L < |ws|
      ensures ws[L] == Stopped(token, st.stacks[L], [])
    {
      assert LaneAtEvent(mc, st, token, L);
    }
    forall L | 0 <= L < |ws|
      ensures Batch(st, ws)[L] == st.pend[L]
    {
      assert ws[L].out == [] && st.pend[L] + [] == st.pend[L];
    }
    assert Batch(st, ws) == st.pend;
  }

  /** Each lane's stack after the event. */
  ghost predicate ResolvesTo(mc: Machine, st: State, token: Token, m: Mem, stacks: seq<seq<Frame>>)
    requires StateOk(mc, st) && AtEvent(mc, st, token) && token != Finished
  {
    && |stacks| == |mc.streams|
    && forall L {:trigger LaneResolvesTo(mc, st, token, m, stacks, L)} | 0 <= L < |mc.streams| ::
      LaneResolvesTo(mc, st, token, m, stacks, L)
  }

  ghost predicate LaneResolvesTo(mc: Machine, st: State, token: Token, m: Mem, stacks: seq<seq<Frame>>, L: nat)
    requires StateOk(mc, st) && token != Finished && |stacks| == |mc.streams| && L < |mc.streams|
  {
    && LaneAtEvent(mc, st, token, L) && CanResolve(mc.streams[L], st.stacks[L], token, m)
    && stacks[L] == Resolve(mc.streams[L], st.stacks[L], token, m)
  }

  lemma EventTurn(mc: Machine, st: State, token: Token, m: Mem, stacks: seq<seq<Frame>>, round: nat)
    requires PickOk(mc) && StateOk(mc, st) && mc.streams != [] && AtEvent(mc, st, token) && token != Finished
    requires Settled(mc, st, m) && ResolvesTo(mc, st, token, m, stacks)
    ensures Round(mc, st, round) == Next(State(stacks, Nothing(|stacks|), m, Launched(st, st.pend)))
  {
    EventWalks(mc, st, token);
    var ws := Walks(mc, st);
    hide Walks, RunBatch, Batch;
    assert ws[0].token == token;
    assert RunBatch(mc, st.pend, round, st.mem) == m;
    forall L | 0 <= L < |ws|
      ensures CanResolve(mc.streams[L], ws[L].stack, token, m)
      ensures stacks[L] == Resolve(mc.streams[L], ws[L].stack, token, m)
    {
      assert LaneResolvesTo(mc, st, token, m, stacks, L);
    }
    assert AllResolve(mc, ws, token, m);
    assert Resolved(mc, ws, token, m) == stacks;
  }

  /** A uniform event takes one round: the batch runs and every lane moves on. */
  lemma EventStep(mc: Machine, st: State, token: Token, m: Mem, stacks: seq<seq<Frame>>)
    requires PickOk(mc) && StateOk(mc, st) && mc.streams != [] && AtEvent(mc, st, token) && token != Finished
    requires Settled(mc, st, m) && ResolvesTo(mc, st, token, m, stacks)
    requires StateOk(mc, State(stacks, Nothing(|stacks|), m, Launched(st, st.pend)))
    ensures Leads(mc, st, State(stacks, Nothing(|stacks|), m, Launched(st, st.pend)), 1)
  {
    assert RoundSliced(mc, st) by {
      EventWalks(mc, st, token);
    }
    hide Settled, AtEvent, ResolvesTo, Round, RoundSliced;
    var next := State(stacks, Nothing(|stacks|), m, Launched(st, st.pend));
    forall left: nat | left > 0
      ensures Round(mc, st, left) == Next(next)
    {
      EventTurn(mc, st, token, m, stacks, left);
    }
    StepOnce(mc, st, next);
  }

  lemma FinishTurn(mc: Machine, st: State, m: Mem, round: nat)
    requires PickOk(mc) && StateOk(mc, st) && AtEvent(mc, st, Finished) && Settled(mc, st, m)
    ensures Round(mc, st, round) == Stop(m, Launched(st, st.pend))
  {
    EventWalks(mc, st, Finished);
    hide Walks, RunBatch, Batch;
    assert RunBatch(mc, st.pend, round, st.mem) == m;
  }

  /** With every lane at the end of its root, the last batch runs and the machine halts. */
  lemma FinishStep(mc: Machine, st: State, m: Mem, left: nat)
    requires PickOk(mc) && StateOk(mc, st) && AtEvent(mc, st, Finished) && Settled(mc, st, m)
    ensures Rounds(mc, st, left + 1) == Halted(m, Launched(st, st.pend)) && Segmented(mc, st, left + 1)
  {
    FinishTurn(mc, st, m, left + 1);
    assert RoundSliced(mc, st) by {
      EventWalks(mc, st, Finished);
    }
    hide Round, Settled, AtEvent, RoundSliced;
  }

  /** With every lane at the end, the machine halts after this round. */
  lemma FinishHalts(mc: Machine, st: State, m: Mem)
    requires PickOk(mc) && StateOk(mc, st) && AtEvent(mc, st, Finished) && Settled(mc, st, m)
    ensures HaltsAt(mc, st, 1, m, Launched(st, st.pend))
  {
    hide Round, AtEvent, Settled, RoundSliced, Launched;
    forall left: nat
      ensures Rounds(mc, st, left) == (if left < 1 then Running else Halted(m, Launched(st, st.pend)))
      ensures Segmented(mc, st, left)
    {
      if left > 0 {
        FinishStep(mc, st, m, left - 1);
      }
    }
  }

  /** One lane that cannot resolve the event is an error. */
  lemma FaultTurn(mc: Machine, st: State, token: Token, m: Mem, L: nat, round: nat)
    requires PickOk(mc) && StateOk(mc, st) && AtEvent(mc, st, token) && token != Finished && Settled(mc, st, m)
    requires L < |mc.streams| && !CanResolve(mc.streams[L], st.stacks[L], token, m)
    ensures Round(mc, st, round) == Fault
  {
    EventWalks(mc, st, token);
    var ws := Walks(mc, st);
    hide Walks, RunBatch, Batch, CanResolve;
    assert ws[0].token == token && ws[L].stack == st.stacks[L];
    assert RunBatch(mc, st.pend, round, st.mem) == m;
    assert !AllResolve(mc, ws, token, m);
  }

  lemma FaultCrashes(mc: Machine, st: State, token: Token, m: Mem, L: nat)
    requires PickOk(mc) && StateOk(mc, st) && AtEvent(mc, st, token) && token != Finished && Settled(mc, st, m)
    requires L < |mc.streams| && !CanResolve(mc.streams[L], st.stacks[L], token, m)
    ensures CrashesAt(mc, st, 1)
  {
    assert RoundSliced(mc, st) by {
      EventWalks(mc, st, token);
    }
    hide Round, AtEvent, Settled, RoundSliced, CanResolve;
    forall left: nat
      ensures Rounds(mc, st, left) == (if left < 1 then Running else Crashed)
      ensures Segmented(mc, st, left)
    {
      if left > 0 {
        FaultTurn(mc, st, token, m, L, left);
      }
    }
  }
}
