/** Occupancy discovery: an oversized launch measures how many workgroups are resident at once
    with a lock, a gate and a ticket counter. */
module Discovery {
  /** Where a group's leader thread stands; a negative ticket means none. */
  datatype Pc = Queued | Lock | Look | Take | Unlock(t: int) | Poll(i: nat, last: nat, stable: nat)
              | LockAgain | Close | UnlockAgain | Spin(t: int) | Gone(t: int)

  /** How long ticket 0 polls: at most `limit` looks, until `calm` of them agree in a row. */
  datatype Setup = Setup(groups: nat, resident: nat, limit: nat, calm: nat)

  /** `holders[t]` is the group that drew ticket `t`. */
  datatype State = State(pc: seq<Pc>, locked: bool, open: bool, count: nat, holders: seq<nat>)

  datatype Action = Start(g: nat) | Move(g: nat)

  function Init(u: Setup): State {
    State(seq(u.groups, g => Queued), false, true, 0, [])
  }

  predicate IsResident(pc: Pc) { !pc.Queued? && !pc.Gone? }

  function Resident(s: State): set<nat> {
    set g: nat | g < |s.pc| && IsResident(s.pc[g])
  }

  /** The device starts a group only while a residency slot is free. */
  predicate Enabled(u: Setup, s: State, a: Action) {
    match a
    case Start(g) => g < |s.pc| && s.pc[g] == Queued && |Resident(s)| < u.resident
    case Move(g) => g < |s.pc| && IsResident(s.pc[g])
  }

  function At(s: State, g: nat, pc: Pc): State
    requires g < |s.pc|
  {
    s.(pc := s.pc[g := pc])
  }

  /** One look of ticket 0 at the counter. */
  function PollStep(u: Setup, s: State, p: Pc): Pc
    requires p.Poll?
  {
    if p.i >= u.limit || p.stable >= u.calm then LockAgain
    else if s.count == p.last then Poll(p.i + 1, p.last, p.stable + 1)
    else Poll(p.i + 1, s.count, 0)
  }

  /** One atomic operation of group `g`. */
  function Step(u: Setup, s: State, g: nat): State
    requires g < |s.pc|
  {
    match s.pc[g]
    case Lock => if s.locked then s else At(s, g, Look).(locked := true)
    case Look => At(s, g, if s.open then Take else Unlock(-1))
    case Take => At(s, g, Unlock(s.count)).(count := s.count + 1, holders := s.holders + [g])
    case Unlock(t) => At(s, g, if t == 0 then Poll(0, 1, 0) else if t > 0 then Spin(t) else Gone(t)).(locked := false)
    case Poll(_, _, _) => At(s, g, PollStep(u, s, s.pc[g]))
    case LockAgain => if s.locked then s else At(s, g, Close).(locked := true)
    case Close => At(s, g, UnlockAgain).(open := false)
    case UnlockAgain => At(s, g, Gone(0)).(locked := false)
    case Spin(t) => if s.open then s else At(s, g, Gone(t))
    case _ => s
  }

  function Do(u: Setup, s: State, a: Action): State
    requires Enabled(u, s, a)
  {
    match a
    case Start(g) => At(s, g, Lock)
    case Move(g) => Step(u, s, g)
  }

  /** The ticket that goes with a position. */
  function Ticket(pc: Pc): int {
    match pc
    case Unlock(t) => t
    case Spin(t) => t
    case Gone(t) => t
    case Poll(_, _, _) => 0
    case LockAgain => 0
    case Close => 0
    case UnlockAgain => 0
    case _ => -1
  }

  predicate HasLock(pc: Pc) {
    pc == Look || pc == Take || pc.Unlock? || pc == Close || pc == UnlockAgain
  }

  /** A group's ticket is recorded under its own number, and its position is possible while the
      gate is as it is. */
  predicate GroupOk(s: State, g: nat)
    requires g < |s.pc|
  {
    var pc := s.pc[g];
    && (Ticket(pc) >= 0 ==> Ticket(pc) < |s.holders| && s.holders[Ticket(pc)] == g)
    && (HasLock(pc) ==> s.locked)
    && (pc == Take || pc == Close || pc.Poll? || pc == LockAgain ==> s.open)
    && (pc == UnlockAgain || pc.Gone? ==> !s.open)
    && (pc.Unlock? && pc.t < 0 ==> !s.open)
    && (pc.Unlock? && pc.t == 0 ==> s.open)
    && (pc.Spin? ==> pc.t > 0) && (pc.Unlock? || pc.Gone? ==> pc.t >= -1)
  }

  predicate TicketOk(s: State, t: nat)
    requires t < |s.holders|
  {
    s.holders[t] < |s.pc| && Ticket(s.pc[s.holders[t]]) == t
  }

  ghost predicate Inv(u: Setup, s: State) {
    && |s.pc| == u.groups && u.resident > 0
    && s.count == |s.holders|
    && (forall g {:trigger GroupOk(s, g)} | 0 <= g < |s.pc| :: GroupOk(s, g))
    && (forall t {:trigger TicketOk(s, t)} | 0 <= t < |s.holders| :: TicketOk(s, t))
    && (forall g, h | 0 <= g < |s.pc| && 0 <= h < |s.pc| && g != h :: !(HasLock(s.pc[g]) && HasLock(s.pc[h])))
    && (s.locked ==> exists g :: 0 <= g < |s.pc| && HasLock(s.pc[g]))
    && |Resident(s)| <= u.resident
    && (!s.open ==> 0 < s.count <= u.resident)
  }

  lemma InitInv(u: Setup)
    requires u.resident > 0
    ensures Inv(u, Init(u))
  {
    assert Resident(Init(u)) == {};
  }

  // ----- the invariant is kept ----------------------------------------------------------------------

  lemma ResidentAfter(s: State, g: nat, pc: Pc)
    requires g < |s.pc|
    ensures Resident(At(s, g, pc)) == (if IsResident(pc) then Resident(s) + {g} else Resident(s) - {g})
  {
  }

  lemma SubsetSize(a: set<nat>, b: set<nat>)
    requires a <= b
    ensures |a| <= |b|
  {
    assert b == a + (b - a);
  }

  /** As many different resident groups as there are tickets. */
  lemma {:induction false} HoldersFit(s: State, k: nat) returns (some: set<nat>)
    requires k <= |s.holders| && forall t | 0 <= t < |s.holders| :: TicketOk(s, t) && IsResident(s.pc[s.holders[t]])
    ensures |some| == k && some <= Resident(s)
    ensures forall g | g in some :: g < |s.pc| && 0 <= Ticket(s.pc[g]) < k
  {
    if k == 0 {
      some := {};
    } else {
      some := HoldersFit(s, k - 1);
      assert TicketOk(s, k - 1) && IsResident(s.pc[s.holders[k - 1]]);
      assert s.holders[k - 1] !in some;
      some := some + {s.holders[k - 1]};
    }
  }

  /** While the gate is open every ticket holder is still resident, so there are no more tickets
      than residency slots. */
  lemma OpenFits(u: Setup, s: State)
    requires Inv(u, s) && s.open
    ensures forall t | 0 <= t < |s.holders| :: TicketOk(s, t) && IsResident(s.pc[s.holders[t]])
    ensures s.count <= u.resident
  {
    forall t | 0 <= t < |s.holders|
      ensures TicketOk(s, t) && IsResident(s.pc[s.holders[t]])
    {
      assert TicketOk(s, t);
      assert GroupOk(s, s.holders[t]);
    }
    var some := HoldersFit(s, |s.holders|);
    SubsetSize(some, Resident(s));
  }

  /** The per-group and per-ticket parts survive a step of `g` that keeps its ticket. */
  lemma OthersKept(s: State, s': State, g: nat)
    requires g < |s.pc| == |s'.pc| && s'.holders == s.holders
    requires forall h | 0 <= h < |s.pc| && h != g :: s'.pc[h] == s.pc[h] && GroupOk(s', h)
    requires GroupOk(s', g) && Ticket(s'.pc[g]) == Ticket(s.pc[g])
    requires forall t | 0 <= t < |s.holders| :: TicketOk(s, t)
    ensures forall h | 0 <= h < |s'.pc| :: GroupOk(s', h)
    ensures forall t | 0 <= t < |s'.holders| :: TicketOk(s', t)
  {
    forall t | 0 <= t < |s'.holders|
      ensures TicketOk(s', t)
    {
      assert TicketOk(s, t);
    }
  }

  lemma StartKeepsInv(u: Setup, s: State, g: nat)
    requires Inv(u, s) && Enabled(u, s, Start(g))
    ensures Inv(u, Do(u, s, Start(g)))
  {
    var s' := At(s, g, Lock);
    ResidentAfter(s, g, Lock);
    forall h | 0 <= h < |s.pc|
      ensures GroupOk(s', h)
    {
      assert GroupOk(s, h);
    }
    OthersKept(s, s', g);
    if s.locked {
      var h :| 0 <= h < |s.pc| && HasLock(s.pc[h]);
      assert HasLock(s'.pc[h]);
    }
  }

  lemma TakeKeepsInv(u: Setup, s: State, g: nat)
    requires Inv(u, s) && g < |s.pc| && s.pc[g] == Take
    ensures Inv(u, Step(u, s, g))
  {
    var s' := Step(u, s, g);
    assert GroupOk(s, g);
    ResidentAfter(s, g, Unlock(s.count));
    forall h | 0 <= h < |s.pc|
      ensures GroupOk(s', h)
    {
      assert GroupOk(s, h);
    }
    forall t | 0 <= t < |s'.holders|
      ensures TicketOk(s', t)
    {
      assert t < |s.holders| ==> TicketOk(s, t);
    }
    assert HasLock(s'.pc[g]);
  }

  lemma CloseKeepsInv(u: Setup, s: State, g: nat)
    requires Inv(u, s) && g < |s.pc| && s.pc[g] == Close
    ensures Inv(u, Step(u, s, g))
  {
    var s' := Step(u, s, g);
    assert GroupOk(s, g);
    OpenFits(u, s);
    ResidentAfter(s, g, UnlockAgain);
    forall h | 0 <= h < |s.pc|
      ensures GroupOk(s', h)
    {
      assert GroupOk(s, h);
      if h != g {
        assert !HasLock(s.pc[h]);
      }
    }
    OthersKept(s, s', g);
    assert HasLock(s'.pc[g]);
  }

  predicate PlainStep(s: State, g: nat) {
    g < |s.pc| && IsResident(s.pc[g]) && s.pc[g] != Take && s.pc[g] != Close
  }

  lemma PlainGroups(u: Setup, s: State, g: nat)
    requires Inv(u, s) && PlainStep(s, g)
    ensures forall h | 0 <= h < |s.pc| :: GroupOk(Step(u, s, g), h)
    ensures forall t | 0 <= t < |s.holders| :: TicketOk(Step(u, s, g), t)
  {
    var s' := Step(u, s, g);
    assert GroupOk(s, g);
    forall h | 0 <= h < |s.pc|
      ensures GroupOk(s', h)
    {
      assert GroupOk(s, h);
      if h != g && !s'.locked {
        assert HasLock(s.pc[g]) || !s.locked;
      }
    }
    OthersKept(s, s', g);
  }

  lemma PlainLock(u: Setup, s: State, g: nat)
    requires Inv(u, s) && PlainStep(s, g)
    ensures var s' := Step(u, s, g);
            && (forall h, i | 0 <= h < |s'.pc| && 0 <= i < |s'.pc| && h != i ::
              !(HasLock(s'.pc[h]) && HasLock(s'.pc[i])))
            && (s'.locked ==> exists h :: 0 <= h < |s'.pc| && HasLock(s'.pc[h]))
  {
    var s' := Step(u, s, g);
    assert GroupOk(s, g);
    forall h | 0 <= h < |s.pc| && h != g
      ensures s'.pc[h] == s.pc[h]
      ensures HasLock(s'.pc[g]) ==> !HasLock(s'.pc[h])
    {
      assert GroupOk(s, h);
    }
    if s'.locked && !HasLock(s'.pc[g]) {
      var h :| 0 <= h < |s.pc| && HasLock(s.pc[h]);
      assert HasLock(s'.pc[h]);
    }
  }

  /** Steps that leave gate and counter alone. */
  lemma PlainKeepsInv(u: Setup, s: State, g: nat)
    requires Inv(u, s) && PlainStep(s, g)
    ensures Inv(u, Step(u, s, g))
  {
    var s' := Step(u, s, g);
    PlainGroups(u, s, g);
    PlainLock(u, s, g);
    ResidentAfter(s, g, s'.pc[g]);
    assert Resident(s') == Resident(At(s, g, s'.pc[g]));
    SubsetSize(Resident(s'), Resident(s));
  }

  lemma DoKeepsInv(u: Setup, s: State, a: Action)
    requires Inv(u, s) && Enabled(u, s, a)
    ensures Inv(u, Do(u, s, a))
    ensures !s.open ==> !Do(u, s, a).open && Do(u, s, a).count == s.count
    ensures s.open && !Do(u, s, a).open ==> a.Move? && Ticket(s.pc[a.g]) == 0
  {
    match a {
      case Start(g) => StartKeepsInv(u, s, g);
      case Move(g) =>
        assert GroupOk(s, g);
        if s.pc[g] == Take {
          TakeKeepsInv(u, s, g);
        } else if s.pc[g] == Close {
          CloseKeepsInv(u, s, g);
        } else {
          PlainKeepsInv(u, s, g);
        }
    }
  }

  // ----- whole runs -----------------------------------------------------------------------------------

  predicate IsRun(u: Setup, s: State, actions: seq<Action>)
    decreases |actions|
  {
    actions == [] || (Enabled(u, s, actions[0]) && IsRun(u, Do(u, s, actions[0]), actions[1..]))
  }

  function After(u: Setup, s: State, actions: seq<Action>): State
    requires IsRun(u, s, actions)
    decreases |actions|
  {
    if actions == [] then s else After(u, Do(u, s, actions[0]), actions[1..])
  }

  /** A closed gate stays closed and the count stays what it was. */
  lemma {:induction false} RunKeepsInv(u: Setup, s: State, actions: seq<Action>)
    requires Inv(u, s) && IsRun(u, s, actions)
    ensures Inv(u, After(u, s, actions))
    ensures !s.open ==> !After(u, s, actions).open && After(u, s, actions).count == s.count
    decreases |actions|
  {
    if actions == [] {
    } else {
      DoKeepsInv(u, s, actions[0]);
      RunKeepsInv(u, Do(u, s, actions[0]), actions[1..]);
    }
  }

  /** Tickets are exactly 0..count-1, each held by one group. */
  predicate TicketsExact(s: State) {
    && (forall g | 0 <= g < |s.pc| && Ticket(s.pc[g]) >= 0 :: Ticket(s.pc[g]) < s.count)
    && (forall g, h | 0 <= g < |s.pc| && 0 <= h < |s.pc| && g != h && Ticket(s.pc[g]) >= 0 ::
      Ticket(s.pc[g]) != Ticket(s.pc[h]))
    && (forall t | 0 <= t < s.count :: HeldBySome(s, t))
  }

  predicate HeldBySome(s: State, t: nat) {
    exists g :: 0 <= g < |s.pc| && Ticket(s.pc[g]) == t
  }

  /** Whatever the launch size, the residency limit and the schedule: tickets are exact, the
      count never exceeds the number of groups that can be resident together, nobody with a
      ticket has left while the gate is open, and once everybody is gone the gate is closed and
      at least one group was counted. */
  lemma DiscoveryHolds(u: Setup, actions: seq<Action>)
    requires u.resident > 0 && u.groups > 0 && IsRun(u, Init(u), actions)
    ensures var s := After(u, Init(u), actions);
            && TicketsExact(s) && s.count <= u.resident
            && (s.open ==> forall g | 0 <= g < |s.pc| :: !s.pc[g].Gone?)
            && ((forall g | 0 <= g < |s.pc| :: s.pc[g].Gone?) ==> !s.open && s.count >= 1)
  {
    InitInv(u);
    RunKeepsInv(u, Init(u), actions);
    var s := After(u, Init(u), actions);
    if s.open {
      OpenFits(u, s);
    }
    forall g | 0 <= g < |s.pc|
      ensures Ticket(s.pc[g]) >= 0 ==> Ticket(s.pc[g]) < s.count && s.holders[Ticket(s.pc[g])] == g
      ensures s.open ==> !s.pc[g].Gone?
    {
      assert GroupOk(s, g);
    }
    forall t | 0 <= t < s.count
      ensures HeldBySome(s, t)
    {
      assert TicketOk(s, t);
    }
    assert GroupOk(s, 0);
  }

  // ----- progress ----------------------------------------------------------------------------------------

  /** An action that changes something. */
  predicate Useful(u: Setup, s: State, a: Action) {
    Enabled(u, s, a) && (a.Move? ==>
      match s.pc[a.g]
      case Lock => !s.locked
      case LockAgain => !s.locked
      case Spin(_) => !s.open
      case _ => true)
  }

  /** As long as some group is not gone, something useful can happen. */
  lemma NeverStuck(u: Setup, s: State) returns (a: Action)
    requires Inv(u, s) && exists g :: 0 <= g < |s.pc| && !s.pc[g].Gone?
    ensures Useful(u, s, a)
  {
    var g: nat :| g < |s.pc| && !s.pc[g].Gone?;
    if s.locked {
      var h: nat :| h < |s.pc| && HasLock(s.pc[h]);
      a := Move(h);
    } else if h: nat :| h < |s.pc| && IsResident(s.pc[h]) && !s.pc[h].Spin? {
      a := Move(h);
    } else if h: nat :| h < |s.pc| && s.pc[h].Spin? {
      SpinnersReleased(u, s, h);
      a := Move(h);
    } else {
      assert Resident(s) == {};
      a := Start(g);
    }
  }

  /** When only spinning groups are resident, the gate is closed. */
  lemma SpinnersReleased(u: Setup, s: State, h: nat)
    requires Inv(u, s) && h < |s.pc| && s.pc[h].Spin?
    requires forall g | 0 <= g < |s.pc| && IsResident(s.pc[g]) :: s.pc[g].Spin?
    ensures !s.open
  {
    assert GroupOk(s, h);
    assert TicketOk(s, 0);
    assert GroupOk(s, s.holders[0]);
  }

  function Remaining(u: Setup, pc: Pc): nat {
    match pc
    case Queued => u.limit + 10
    case Lock => u.limit + 9
    case Look => u.limit + 8
    case Take => u.limit + 7
    case Unlock(_) => u.limit + 6
    case Poll(i, _, _) => if i <= u.limit then u.limit - i + 5 else 5
    case LockAgain => 4
    case Close => 3
    case UnlockAgain => 2
    case Spin(_) => 1
    case Gone(_) => 0
  }

  function Total(u: Setup, s: State, to: nat): nat
    requires to <= |s.pc|
  {
    if to == 0 then 0 else Total(u, s, to - 1) + Remaining(u, s.pc[to - 1])
  }

  lemma {:induction false} TotalChanges(u: Setup, s: State, s': State, g: nat, to: nat)
    requires to <= |s.pc| == |s'.pc| && g < |s.pc| && s'.pc == s.pc[g := s'.pc[g]]
    ensures Total(u, s', to) as int - Total(u, s, to)
        == if g < to then Remaining(u, s'.pc[g]) - Remaining(u, s.pc[g]) else 0
  {
    if to == 0 {
    } else {
      TotalChanges(u, s, s', g, to - 1);
    }
  }

  /** Every useful action brings the end nearer, for any launch size and polling bound. */
  lemma UsefulShrinks(u: Setup, s: State, a: Action)
    requires Useful(u, s, a)
    ensures |Do(u, s, a).pc| == |s.pc|
    ensures Total(u, Do(u, s, a), |s.pc|) < Total(u, s, |s.pc|)
  {
    TotalChanges(u, s, Do(u, s, a), a.g, |s.pc|);
  }
}
