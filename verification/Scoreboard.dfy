/** Point-to-point synchronisation against serial barriers: K independent tasks of P tiles each,
    and P dependent tiles that each need the same tile of all K tasks, on G lanes. */
module Scoreboard {
  import opened Arith

  /** Items 0..K*P-1 are producer tiles (tile `i % P` of task `i / P`); item K*P + t is the
      dependent tile `t`. */
  datatype Config = Config(G: pos, K: nat, P: pos)
  {
    function Producers(): nat { K * P }
    function Items(): nat { K * P + P }
  }

  /** What dependent tile `t` must come to: the sum of its K producers, the first `k` of them. */
  function Expected(c: Config, t: nat, k: nat): nat {
    if k == 0 then 0 else Expected(c, t, k - 1) + ((k - 1) * c.P + t + 1)
  }

  function SumOut(c: Config, out: seq<int>, t: nat, k: nat): int
    requires |out| == c.Producers() && t < c.P && k <= c.K
  {
    if k == 0 then 0
    else
      TileIndex(c, k - 1, t);
      SumOut(c, out, t, k - 1) + out[(k - 1) * c.P + t]
  }

  lemma TileIndex(c: Config, k: nat, t: nat)
    requires k < c.K && t < c.P
    ensures k * c.P + t < c.Producers()
    ensures (k * c.P + t) / c.P == k
  {
    MulMonotone(k + 1, c.K, c.P);
    assert (k + 1) * c.P == k * c.P + c.P;
    DivAtLeast(k * c.P + t, k, c.P);
    DivBelow(k * c.P + t, k + 1, c.P);
  }

  // ----- the wait mask --------------------------------------------------------------------------------

  /** The mask of a dependent tile is one word. */
  const WORD_BITS := 32
  const WORD := 0x1_0000_0000

  function Pow2(k: nat): pos { if k == 0 then 1 else 2 * Pow2(k - 1) }

  /** One bit for each task. */
  function WaitMask(tasks: nat): nat { Pow2(tasks) - 1 }

  predicate Bit(mask: nat, k: nat) { mask / Pow2(k) % 2 == 1 }

  lemma {:induction false} Pow2Sum(a: nat, b: nat)
    ensures Pow2(a + b) == Pow2(a) * Pow2(b)
  {
    if a == 0 {
    } else {
      Pow2Sum(a - 1, b);
      assert 2 * Pow2(a - 1) * Pow2(b) == 2 * (Pow2(a - 1) * Pow2(b));
    }
  }

  lemma {:induction false} Pow2Grows(a: nat, b: nat)
    requires a <= b
    ensures Pow2(a) <= Pow2(b)
    decreases b
  {
    if a >= b {
    } else {
      Pow2Grows(a, b - 1);
    }
  }

  lemma BitBelow(q: nat, d: pos)
    requires q > 0
    ensures q * d >= d && (q * d - 1) / d == q - 1
  {
    MulMonotone(1, q, d);
    assert q * d == (q - 1) * d + d;
    Quotient(q - 1, d);
  }

  lemma OneLessIsOdd(half: pos)
    ensures (2 * half - 1) % 2 == 1
  {
    assert 2 * half - 1 == 2 * (half - 1) + 1;
  }

  lemma Pow2Even(k: nat)
    requires k > 0
    ensures (Pow2(k) - 1) % 2 == 1
  {
    OneLessIsOdd(Pow2(k - 1));
  }

  /** The mask names every task and nothing else. */
  lemma MaskBits(tasks: nat, k: nat)
    ensures Bit(WaitMask(tasks), k) <==> k < tasks
  {
    hide Pow2;
    var mask, d := WaitMask(tasks), Pow2(k);
    if k < tasks {
      Pow2Sum(tasks - k, k);
      var q := Pow2(tasks - k);
      BitBelow(q, d);
      Pow2Even(tasks - k);
      assert mask / d == q - 1;
    } else {
      Pow2Grows(tasks, k);
      DivBelow(mask, 1, d);
      assert mask / d == 0;
    }
  }

  lemma Quotient(q: nat, d: pos)
    ensures (q * d + (d - 1)) / d == q
  {
    DivAtLeast(q * d + (d - 1), q, d);
    assert (q + 1) * d == q * d + d;
    DivBelow(q * d + (d - 1), q + 1, d);
  }

  /** It is computed within one word exactly for fewer than 32 tasks. */
  lemma MaskFits(tasks: nat)
    ensures Pow2(tasks) < WORD <==> tasks < WORD_BITS
  {
    WordPower();
    if tasks < WORD_BITS {
      Pow2Grows(tasks, WORD_BITS - 1);
    } else {
      Pow2Grows(WORD_BITS, tasks);
    }
  }

  lemma WordPower()
    ensures Pow2(31) == 0x8000_0000 && Pow2(32) == WORD
  {
    Pow2Sum(8, 8);
    assert Pow2(8) == 256;
    Pow2Sum(16, 8);
    Pow2Sum(24, 7);
    assert Pow2(7) == 128;
  }

  // ----- the point-to-point schedule ----------------------------------------------------------------

  /** The items dealt to one lane, round robin, the first `n` items considered. */
  function Dealt(c: Config, lane: nat, n: nat): (s: seq<nat>)
    ensures forall x | 0 <= x < |s| :: s[x] < n && s[x] % c.G == lane
  {
    if n == 0 then [] else Dealt(c, lane, n - 1) + if (n - 1) % c.G == lane then [n - 1] else []
  }

  /** Pushes all producer tiles and then all dependent tiles, round robin over the lanes. */
  method BuildScoreboard(c: Config) returns (lanes: seq<seq<nat>>)
    ensures |lanes| == c.G && forall L | 0 <= L < c.G :: lanes[L] == Dealt(c, L, c.Items())
  {
    lanes := seq(c.G, L => []);
    var i := 0;
    while i < c.Producers()
      invariant 0 <= i <= c.Producers() && |lanes| == c.G
      invariant forall L | 0 <= L < c.G :: lanes[L] == Dealt(c, L, i)
    {
      lanes := lanes[i % c.G := lanes[i % c.G] + [i]];
      i := i + 1;
    }
    var t := 0;
    while t < c.P
      invariant 0 <= t <= c.P && |lanes| == c.G
      invariant forall L | 0 <= L < c.G :: lanes[L] == Dealt(c, L, c.Producers() + t)
    {
      var L := (c.Producers() + t) % c.G;
      lanes := lanes[L := lanes[L] + [c.Producers() + t]];
      t := t + 1;
    }
  }

  function Stream(c: Config, lane: nat): (s: seq<nat>)
    ensures forall x | 0 <= x < |s| :: s[x] < c.Items() && s[x] % c.G == lane
  {
    Dealt(c, lane, c.Items())
  }

  lemma {:induction false} DealtAscends(c: Config, lane: nat, n: nat)
    ensures forall x, y | 0 <= x < y < |Dealt(c, lane, n)| :: Dealt(c, lane, n)[x] < Dealt(c, lane, n)[y]
  {
    if n == 0 {
    } else {
      DealtAscends(c, lane, n - 1);
    }
  }

  lemma {:induction false} DealtHas(c: Config, i: nat, n: nat) returns (x: nat)
    requires i < n
    ensures x < |Dealt(c, i % c.G, n)| && Dealt(c, i % c.G, n)[x] == i
  {
    if i == n - 1 {
      x := |Dealt(c, i % c.G, n - 1)|;
    } else {
      x := DealtHas(c, i, n - 1);
    }
  }

  // ----- the machine ----------------------------------------------------------------------------------

  /** Each lane is at item `pos[L]` of its stream, `sub[L]` steps into it. */
  datatype State = State(pos: seq<nat>, sub: seq<nat>, out: seq<int>, flags: seq<nat>, dep: seq<int>)

  predicate Shape(c: Config, s: State) {
    && c.K < WORD_BITS
    && |s.pos| == |s.sub| == c.G && |s.out| == c.Producers() && |s.flags| == c.K && |s.dep| == c.P
  }

  function Init(c: Config): State {
    State(seq(c.G, L => 0), seq(c.G, L => 0), seq(c.Producers(), i => 0), seq(c.K, k => 0), seq(c.P, t => 0))
  }

  predicate Busy(c: Config, s: State, L: nat)
    requires Shape(c, s)
  {
    L < c.G && s.pos[L] < |Stream(c, L)|
  }

  function Item(c: Config, s: State, L: nat): nat
    requires Shape(c, s) && Busy(c, s, L)
  {
    Stream(c, L)[s.pos[L]]
  }

  function Next(c: Config, s: State, L: nat): State
    requires Shape(c, s) && Busy(c, s, L)
  {
    s.(pos := s.pos[L := s.pos[L] + 1], sub := s.sub[L := 0])
  }

  predicate SubOk(c: Config, s: State, L: nat)
    requires Shape(c, s) && L < c.G
  {
    if !Busy(c, s, L) then s.sub[L] == 0
    else if Item(c, s, L) < c.Producers() then s.sub[L] <= 1 else s.sub[L] <= c.K
  }

  /** A producer tile writes its output, then raises its task's flag; a dependent tile waits for
      one flag of its mask after the other, then adds up its inputs. */
  function Step(c: Config, s: State, L: nat): State
    requires Shape(c, s) && Busy(c, s, L) && SubOk(c, s, L)
  {
    var i := Item(c, s, L);
    if i < c.Producers() then
      if s.sub[L] == 0 then s.(out := s.out[i := i + 1], sub := s.sub[L := 1])
      else
        DivBelow(i, c.K, c.P);
        Next(c, s, L).(flags := s.flags[i / c.P := s.flags[i / c.P] + 1])
    else if s.sub[L] < c.K then
      if Bit(WaitMask(c.K), s.sub[L]) && s.flags[s.sub[L]] < c.P then s else s.(sub := s.sub[L := s.sub[L] + 1])
    else Next(c, s, L).(dep := s.dep[i - c.Producers() := SumOut(c, s.out, i - c.Producers(), c.K)])
  }

  /** Item `i` is behind its lane's position. */
  predicate Passed(c: Config, s: State, i: nat)
    requires Shape(c, s) && i < c.Items()
  {
    var L := i % c.G;
    s.pos[L] >= |Stream(c, L)| || i < Stream(c, L)[s.pos[L]]
  }

  /** The signalled tiles of one task among the first `n` items. */
  function Signals(c: Config, s: State, k: nat, n: nat): nat
    requires Shape(c, s) && n <= c.Items()
  {
    if n == 0 then 0 else Signals(c, s, k, n - 1) + if Passed(c, s, n - 1) && (n - 1) / c.P == k then 1 else 0
  }

  predicate LaneOk(c: Config, s: State, L: nat)
    requires Shape(c, s) && L < c.G
  {
    && SubOk(c, s, L) && s.pos[L] <= |Stream(c, L)|
    && (Busy(c, s, L) && Item(c, s, L) < c.Producers() && s.sub[L] == 1 ==> s.out[Item(c, s, L)] == Item(c, s, L) + 1)
    && (Busy(c, s, L) && Item(c, s, L) >= c.Producers() ==> forall k | 0 <= k < s.sub[L] :: s.flags[k] >= c.P)
  }

  predicate ItemOk(c: Config, s: State, i: nat)
    requires Shape(c, s) && i < c.Items()
  {
    Passed(c, s, i) ==>
      if i < c.Producers() then s.out[i] == i + 1 else s.dep[i - c.Producers()] == Expected(c, i - c.Producers(), c.K)
  }

  ghost predicate Inv(c: Config, s: State) {
    && Shape(c, s)
    && (forall L {:trigger LaneOk(c, s, L)} | 0 <= L < c.G :: LaneOk(c, s, L))
    && (forall i {:trigger ItemOk(c, s, i)} | 0 <= i < c.Items() :: ItemOk(c, s, i))
    && (forall k {:trigger Signals(c, s, k, c.Producers())} | 0 <= k < c.K ::
      s.flags[k] == Signals(c, s, k, c.Producers()))
  }

  // ----- a full flag means a finished task ------------------------------------------------------------

  lemma {:induction false} SignalsBound(c: Config, s: State, k: nat, n: nat)
    requires Shape(c, s) && n <= c.Items()
    ensures Signals(c, s, k, n) <= if n < k * c.P then 0 else n - k * c.P
    ensures Signals(c, s, k, n) <= c.P
  {
    if n == 0 {
    } else {
      SignalsBound(c, s, k, n - 1);
      if (n - 1) / c.P == k {
        TaskRange(c, n - 1);
      } else if (n - 1) / c.P > k {
        TaskRange(c, n - 1);
      }
      if n > k * c.P + c.P {
        assert (n - 1) / c.P != k by {
          TaskRange(c, n - 1);
        }
      }
    }
  }

  lemma TaskRange(c: Config, i: nat)
    ensures i / c.P * c.P <= i < i / c.P * c.P + c.P
  {
    assert i == i / c.P * c.P + i % c.P;
  }

  /** With as many signals as tiles, every tile of the task has been signalled. */
  lemma {:induction false} AllSignalled(c: Config, s: State, k: nat, n: nat, i: nat)
    requires Shape(c, s) && n <= c.Items() && k * c.P <= i < n && i < k * c.P + c.P
    requires n <= k * c.P + c.P && Signals(c, s, k, n) >= n - k * c.P
    ensures Passed(c, s, i)
  {
    SignalsBound(c, s, k, n - 1);
    if i >= n - 1 {
    } else {
      AllSignalled(c, s, k, n - 1, i);
    }
  }

  lemma {:induction false} SignalsAfterTask(c: Config, s: State, k: nat, n: nat)
    requires Shape(c, s) && k * c.P + c.P <= n <= c.Items()
    ensures Signals(c, s, k, n) == Signals(c, s, k, k * c.P + c.P)
    decreases n
  {
    if n > k * c.P + c.P {
      SignalsAfterTask(c, s, k, n - 1);
      TaskRange(c, n - 1);
    }
  }

  /** When flag `k` has reached P, every tile of task `k` has been written. */
  lemma FullFlag(c: Config, s: State, k: nat, t: nat)
    requires Inv(c, s) && k < c.K && t < c.P && s.flags[k] >= c.P
    ensures k * c.P + t < c.Producers() && s.out[k * c.P + t] == k * c.P + t + 1
  {
    hide Stream;
    TileIndex(c, k, t);
    TileIndex(c, k, c.P - 1);
    assert s.flags[k] == Signals(c, s, k, c.Producers());
    SignalsAfterTask(c, s, k, c.Producers());
    AllSignalled(c, s, k, k * c.P + c.P, k * c.P + t);
    assert ItemOk(c, s, k * c.P + t);
  }

  /** A dependent tile that is allowed to add up reads only finished tiles, and gets the sum. */
  lemma {:induction false} SumComplete(c: Config, s: State, t: nat, k: nat)
    requires Inv(c, s) && t < c.P && k <= c.K && forall j | 0 <= j < k :: s.flags[j] >= c.P
    ensures SumOut(c, s.out, t, k) == Expected(c, t, k)
  {
    if k == 0 {
    } else {
      SumComplete(c, s, t, k - 1);
      FullFlag(c, s, k - 1, t);
    }
  }

  // ----- the invariant is kept ------------------------------------------------------------------------

  lemma InitInv(c: Config)
    requires c.K < WORD_BITS
    ensures Inv(c, Init(c))
  {
    var s := Init(c);
    forall i | 0 <= i < c.Items()
      ensures !Passed(c, s, i)
    {
      var x := DealtHas(c, i, c.Items());
      DealtAscends(c, i % c.G, c.Items());
    }
    forall k | 0 <= k < c.K
      ensures Signals(c, s, k, c.Producers()) == 0
    {
      NoSignals(c, s, k, c.Producers());
    }
  }

  lemma {:induction false} NoSignals(c: Config, s: State, k: nat, n: nat)
    requires Shape(c, s) && n <= c.Items() && forall i | 0 <= i < c.Items() :: !Passed(c, s, i)
    ensures Signals(c, s, k, n) == 0
  {
    if n == 0 {
    } else {
      NoSignals(c, s, k, n - 1);
    }
  }

  lemma {:induction false} SameSignals(c: Config, s: State, s': State, k: nat, n: nat)
    requires Shape(c, s) && Shape(c, s') && n <= c.Items() && s'.pos == s.pos
    ensures Signals(c, s', k, n) == Signals(c, s, k, n)
  {
    if n == 0 {
    } else {
      SameSignals(c, s, s', k, n - 1);
    }
  }

  /** Moving lane `L` on passes exactly its current item. */
  lemma PassedNext(c: Config, s: State, s': State, L: nat, i: nat)
    requires Shape(c, s) && Shape(c, s') && Busy(c, s, L) && i < c.Items() && s'.pos == s.pos[L := s.pos[L] + 1]
    ensures Passed(c, s', i) <==> Passed(c, s, i) || i == Item(c, s, L)
    ensures !Passed(c, s, Item(c, s, L))
  {
    DealtAscends(c, L, c.Items());
    var x := DealtHas(c, i, c.Items());
    if i % c.G == L {
      var st := Stream(c, L);
      assert x < s.pos[L] ==> st[x] < st[s.pos[L]];
      assert x > s.pos[L] ==> st[s.pos[L]] < st[x];
      if s.pos[L] + 1 < |st| {
        assert st[s.pos[L]] < st[s.pos[L] + 1];
        assert x > s.pos[L] + 1 ==> st[s.pos[L] + 1] < st[x];
      }
    }
  }

  lemma {:induction false} NextSignals(c: Config, s: State, s': State, L: nat, k: nat, n: nat)
    requires Shape(c, s) && Shape(c, s') && Busy(c, s, L) && n <= c.Items() && s'.pos == s.pos[L := s.pos[L] + 1]
    ensures Signals(c, s', k, n) == Signals(c, s, k, n) + if Item(c, s, L) < n && Item(c, s, L) / c.P == k then 1 else 0
  {
    if n == 0 {
    } else {
      NextSignals(c, s, s', L, k, n - 1);
      PassedNext(c, s, s', L, n - 1);
    }
  }

  /** A step that does not move its lane on. */
  lemma StayKeepsInv(c: Config, s: State, L: nat)
    requires Inv(c, s) && Busy(c, s, L) && SubOk(c, s, L) && Step(c, s, L).pos == s.pos
    ensures Inv(c, Step(c, s, L))
  {
    MaskBits(c.K, s.sub[L]);
    hide Bit, WaitMask;
    var s' := Step(c, s, L);
    forall R | 0 <= R < c.G
      ensures LaneOk(c, s', R)
    {
      assert LaneOk(c, s, R);
    }
    forall i | 0 <= i < c.Items()
      ensures ItemOk(c, s', i)
    {
      assert ItemOk(c, s, i);
      assert Passed(c, s', i) == Passed(c, s, i);
    }
    forall k | 0 <= k < c.K
      ensures s'.flags[k] == Signals(c, s', k, c.Producers())
    {
      assert s.flags[k] == Signals(c, s, k, c.Producers());
      SameSignals(c, s, s', k, c.Producers());
    }
  }

  lemma SignalKeepsInv(c: Config, s: State, L: nat)
    requires Inv(c, s) && Busy(c, s, L) && Item(c, s, L) < c.Producers() && s.sub[L] == 1
    ensures SubOk(c, s, L) && Inv(c, Step(c, s, L))
  {
    assert LaneOk(c, s, L);
    var s', i := Step(c, s, L), Item(c, s, L);
    DivBelow(i, c.K, c.P);
    forall R | 0 <= R < c.G
      ensures LaneOk(c, s', R)
    {
      assert LaneOk(c, s, R);
    }
    forall j | 0 <= j < c.Items()
      ensures ItemOk(c, s', j)
    {
      assert ItemOk(c, s, j);
      PassedNext(c, s, s', L, j);
    }
    forall k | 0 <= k < c.K
      ensures s'.flags[k] == Signals(c, s', k, c.Producers())
    {
      assert s.flags[k] == Signals(c, s, k, c.Producers());
      NextSignals(c, s, s', L, k, c.Producers());
    }
  }

  lemma AddKeepsInv(c: Config, s: State, L: nat)
    requires Inv(c, s) && Busy(c, s, L) && Item(c, s, L) >= c.Producers() && s.sub[L] == c.K
    ensures SubOk(c, s, L) && Inv(c, Step(c, s, L))
  {
    assert LaneOk(c, s, L);
    var s', i := Step(c, s, L), Item(c, s, L);
    SumComplete(c, s, i - c.Producers(), c.K);
    forall R | 0 <= R < c.G
      ensures LaneOk(c, s', R)
    {
      assert LaneOk(c, s, R);
    }
    forall j | 0 <= j < c.Items()
      ensures ItemOk(c, s', j)
    {
      assert ItemOk(c, s, j);
      PassedNext(c, s, s', L, j);
    }
    forall k | 0 <= k < c.K
      ensures s'.flags[k] == Signals(c, s', k, c.Producers())
    {
      assert s.flags[k] == Signals(c, s, k, c.Producers());
      NextSignals(c, s, s', L, k, c.Producers());
    }
  }

  lemma StepKeepsInv(c: Config, s: State, L: nat)
    requires Inv(c, s) && Busy(c, s, L)
    ensures SubOk(c, s, L) && Inv(c, Step(c, s, L))
  {
    assert LaneOk(c, s, L);
    var i := Item(c, s, L);
    if i < c.Producers() && s.sub[L] == 1 {
      SignalKeepsInv(c, s, L);
    } else if i >= c.Producers() && s.sub[L] == c.K {
      AddKeepsInv(c, s, L);
    } else {
      StayKeepsInv(c, s, L);
    }
  }

  /** Every lane is at its end. */
  predicate Finished(c: Config, s: State)
    requires Shape(c, s)
  {
    forall L | 0 <= L < c.G :: !Busy(c, s, L)
  }

  /** A schedule of lane moves; a lane at its end stays there. */
  function Run(c: Config, s: State, moves: seq<nat>): (r: State)
    requires Inv(c, s)
    ensures Shape(c, r)
    decreases |moves|
  {
    if moves == [] then s
    else if Busy(c, s, moves[0]) then
      StepKeepsInv(c, s, moves[0]);
      Run(c, Step(c, s, moves[0]), moves[1..])
    else Run(c, s, moves[1..])
  }

  lemma {:induction false} RunKeepsInv(c: Config, s: State, moves: seq<nat>)
    requires Inv(c, s)
    ensures Inv(c, Run(c, s, moves))
    decreases |moves|
  {
    if moves == [] {
    } else {
      if Busy(c, s, moves[0]) {
        StepKeepsInv(c, s, moves[0]);
        RunKeepsInv(c, Step(c, s, moves[0]), moves[1..]);
      } else {
        RunKeepsInv(c, s, moves[1..]);
      }
    }
  }

  /** Every interleaving of the lanes that runs to the end computes the expected array, as long as
      the wait mask has room for all tasks. */
  lemma ScoreboardCorrect(c: Config, moves: seq<nat>)
    requires c.K < WORD_BITS
    ensures Inv(c, Init(c))
    ensures var s := Run(c, Init(c), moves);
            Finished(c, s) ==> forall t: nat | t < c.P :: s.dep[t] == Expected(c, t, c.K)
  {
    InitInv(c);
    RunKeepsInv(c, Init(c), moves);
    var s := Run(c, Init(c), moves);
    if Finished(c, s) {
      forall t: nat | t < c.P
        ensures s.dep[t] == Expected(c, t, c.K)
      {
        var i := c.Producers() + t;
        assert !Busy(c, s, i % c.G);
        assert ItemOk(c, s, i);
      }
    }
  }

  // ----- no deadlock --------------------------------------------------------------------------------------

  /** A lane that is not just looking at a flag that is still low. */
  predicate CanAdvance(c: Config, s: State, L: nat)
    requires Shape(c, s)
  {
    && Busy(c, s, L)
    && (Item(c, s, L) >= c.Producers() && s.sub[L] < c.K ==> s.flags[s.sub[L]] >= c.P)
  }

  lemma {:induction false} LowestItem(c: Config, s: State, n: nat) returns (L: nat)
    requires Shape(c, s) && n <= c.G && exists R :: 0 <= R < n && Busy(c, s, R)
    ensures L < n && Busy(c, s, L)
    ensures forall R | 0 <= R < n && Busy(c, s, R) :: Item(c, s, L) <= Item(c, s, R)
  {
    var R: nat :| R < n && Busy(c, s, R);
    if exists Q :: 0 <= Q < n - 1 && Busy(c, s, Q) {
      L := LowestItem(c, s, n - 1);
      if Busy(c, s, n - 1) && Item(c, s, n - 1) < Item(c, s, L) {
        L := n - 1;
      }
    } else {
      L := n - 1;
    }
  }

  /** When every producer item is passed, every flag is full. */
  lemma {:induction false} AllPassed(c: Config, s: State, k: nat, n: nat)
    requires Shape(c, s) && k < c.K && k * c.P <= n <= k * c.P + c.P && n <= c.Producers()
    requires forall i | 0 <= i < c.Producers() :: Passed(c, s, i)
    ensures Signals(c, s, k, n) >= n - k * c.P
    decreases n
  {
    if n > k * c.P {
      AllPassed(c, s, k, n - 1);
      TileIndex(c, k, n - 1 - k * c.P);
    }
  }

  lemma FlagsFull(c: Config, s: State, k: nat)
    requires Inv(c, s) && k < c.K && forall i | 0 <= i < c.Producers() :: Passed(c, s, i)
    ensures s.flags[k] >= c.P
  {
    assert s.flags[k] == Signals(c, s, k, c.Producers());
    TileIndex(c, k, c.P - 1);
    SignalsAfterTask(c, s, k, c.Producers());
    AllPassed(c, s, k, k * c.P + c.P);
  }

  /** As long as some lane is busy, some lane can advance: the one with the lowest item, because
      every stream lists its producers before its dependents. */
  lemma NoDeadlock(c: Config, s: State) returns (L: nat)
    requires Inv(c, s) && exists R :: 0 <= R < c.G && Busy(c, s, R)
    ensures CanAdvance(c, s, L)
  {
    L := LowestItem(c, s, c.G);
    assert LaneOk(c, s, L);
    if Item(c, s, L) >= c.Producers() && s.sub[L] < c.K {
      forall i | 0 <= i < c.Producers()
        ensures Passed(c, s, i)
      {
        if Busy(c, s, i % c.G) {
          assert Item(c, s, L) <= Item(c, s, i % c.G);
        }
      }
      FlagsFull(c, s, s.sub[L]);
    }
  }

  // ----- serial barriers ---------------------------------------------------------------------------------

  /** Each lane once, in some order. */
  predicate IsOrder(c: Config, order: seq<nat>) {
    (forall x | 0 <= x < |order| :: order[x] < c.G) && forall L: nat | L < c.G :: L in order
  }

  /** The barrier schedule: lane L takes tile L of one task after the other, with a barrier after
      each, and then dependent tile L; lanes run in any order between barriers. Tiles that have
      no lane are never run. */
  method RunBarriers(c: Config, orders: nat -> seq<nat>) returns (dep: seq<int>)
    requires forall t: nat :: IsOrder(c, orders(t))
    ensures |dep| == c.P
    ensures forall t: nat | t < c.P :: dep[t] == if t < c.G then Expected(c, t, c.K) else 0
  {
    var out := seq(c.Producers(), i => 0);
    var k := 0;
    while k < c.K
      invariant 0 <= k <= c.K && |out| == c.Producers()
      invariant TasksDone(c, out, k)
    {
      out := OnePhase(c, out, k, orders(k));
      k := k + 1;
    }
    dep := LastPhase(c, out, orders(c.K));
  }

  predicate TasksDone(c: Config, out: seq<int>, tasks: nat) {
    |out| == c.Producers() && forall j: nat, t: nat | j < tasks && t < c.P && t < c.G :: TileDone(c, out, j, t)
  }

  predicate TileDone(c: Config, out: seq<int>, j: nat, t: nat) {
    j * c.P + t < |out| && out[j * c.P + t] == j * c.P + t + 1
  }

  method OnePhase(c: Config, out0: seq<int>, k: nat, order: seq<nat>) returns (out: seq<int>)
    requires k < c.K && TasksDone(c, out0, k) && IsOrder(c, order)
    ensures TasksDone(c, out, k + 1)
  {
    out := out0;
    var x := 0;
    while x < |order|
      invariant 0 <= x <= |order| && TasksDone(c, out, k)
      invariant forall t: nat | t < c.P && t in order[..x] :: TileDone(c, out, k, t)
    {
      var L := order[x];
      assert order[..x + 1] == order[..x] + [L];
      if L < c.P {
        TileIndex(c, k, L);
        ghost var was := out;
        out := out[k * c.P + L := k * c.P + L + 1];
        forall j: nat, t: nat | j <= k && t < c.P && TileDone(c, was, j, t)
          ensures TileDone(c, out, j, t)
        {
        }
      }
      x := x + 1;
    }
    assert order[..x] == order;
  }

  lemma {:induction false} SumOfDone(c: Config, out: seq<int>, t: nat, k: nat)
    requires TasksDone(c, out, c.K) && t < c.P && t < c.G && k <= c.K
    ensures SumOut(c, out, t, k) == Expected(c, t, k)
  {
    if k == 0 {
    } else {
      SumOfDone(c, out, t, k - 1);
      assert TileDone(c, out, k - 1, t);
    }
  }

  method LastPhase(c: Config, out: seq<int>, order: seq<nat>) returns (dep: seq<int>)
    requires TasksDone(c, out, c.K) && IsOrder(c, order)
    ensures |dep| == c.P
    ensures forall t: nat | t < c.P :: dep[t] == if t < c.G then Expected(c, t, c.K) else 0
  {
    dep := seq(c.P, t => 0);
    var x := 0;
    while x < |order|
      invariant 0 <= x <= |order| && |dep| == c.P
      invariant forall t: nat | t < c.P :: dep[t] == if t in order[..x] then Expected(c, t, c.K) else 0
    {
      var L := order[x];
      assert order[..x + 1] == order[..x] + [L];
      if L < c.P {
        SumOfDone(c, out, L, c.K);
        dep := dep[L := SumOut(c, out, L, c.K)];
      }
      x := x + 1;
    }
    assert order[..x] == order;
    forall t: nat | t < c.P
      ensures t in order <==> t < c.G
    {
    }
  }

  lemma {:induction false} ExpectedPositive(c: Config, t: nat, k: nat)
    requires k > 0
    ensures Expected(c, t, k) > 0
  {
  }

  /** Both modes, each in an order of its own. They compute the same array exactly when every tile
      has a lane of its own, that is when P <= G (or there is nothing to add up). */
  method ModesAgree(c: Config, orders: nat -> seq<nat>, moves: seq<nat>)
    returns (barriers: seq<int>, scoreboard: seq<int>)
    requires c.K < WORD_BITS && forall t: nat :: IsOrder(c, orders(t))
    requires Inv(c, Init(c)) && Finished(c, Run(c, Init(c), moves))
    ensures |barriers| == c.P && forall t: nat | t < c.P :: barriers[t] == if t < c.G then Expected(c, t, c.K) else 0
    ensures scoreboard == Run(c, Init(c), moves).dep
    ensures barriers == scoreboard <==> c.P <= c.G || c.K == 0
  {
    barriers := RunBarriers(c, orders);
    scoreboard := Run(c, Init(c), moves).dep;
    ScoreboardCorrect(c, moves);
    if c.P > c.G && c.K > 0 {
      ExpectedPositive(c, c.G, c.K);
      assert barriers[c.G] != scoreboard[c.G];
    }
  }
}
